/**
 Row locks alone make every interleaving equal to a serial run: the committed tables of any reachable
 state are what the atomic requests produce when run one after another in commit order.
 */
module Serializability {
  import opened Wrappers
  import opened Money
  import opened WalletOrder
  import opened Tables
  import opened Serial
  import opened Sessions

  /** The serial run that a commit history stands for, with every receipt checked against it. */
  ghost function Replay(log: seq<Ticket>): Option<Db>
    decreases |log|
  {
    if log == [] then Some(EMPTY) else
    var t := log[|log| - 1];
    match Replay(log[..|log| - 1])
    case None => None
    case Some(before) =>
      match Apply(before, t.order)
      case Refused(_) => None
      case Accepted(after, receipt) => if receipt == t.receipt then Some(after) else None
  }

  /* ---- What each stage knows ---- */

  predicate Past(s: Session, stage: Stage) {
    !s.stage.Done? && Rank(s.stage) > Rank(stage)
  }

  predicate StageFits(s: Session) {
    match s.stage
    case FindTarget | LockSecond | CheckFunds | WriteSource | EnterDebit => s.req.Transfer?
    case LockFirst | InsertTxn | WriteTarget | EnterCredit | MarkCompleted => !s.req.Register?
    case InsertUser | InsertWallet => s.req.Register?
    case Start | Begin | Commit | Done => true
  }

  /** The rows a session has locked, by how far it is. */
  ghost function HeldIds(s: Session): set<WalletId> {
    match s.req
    case TopUp(_, _) => if Past(s, LockFirst) then {s.target} else {}
    case Transfer(_, _, _) =>
      if Past(s, LockSecond) then {s.source, s.target}
      else if Past(s, LockFirst) then {First(s.source, s.target)} else {}
    case Register(_) => {}
  }

  /** The private writes of a session, by how far it is. */
  ghost function DeltaOf(s: Session): Db {
    match s.req
    case TopUp(_, _) | Transfer(_, _, _) => Db(map[], map[], WritesOf(s), map[], TxnsOf(s), EntriesOf(s))
    case Register(email) =>
      EMPTY.(
        users := if Past(s, InsertUser) then map[s.id := email] else map[],
        byEmail := if Past(s, InsertUser) then map[email := s.id] else map[],
        wallets := if Past(s, InsertWallet) then map[s.target := Wallet(s.id, 0)] else map[],
        byOwner := if Past(s, InsertWallet) then map[s.id := s.target] else map[])
  }

  ghost function TxnsOf(s: Session): seq<Txn>
    requires !s.req.Register?
  {
    if !Past(s, InsertTxn) then [] else
    [Txn(s.id, if s.req.TopUp? then TopUpKind else TransferKind, if Past(s, MarkCompleted) then Completed else Pending,
         Round(s.req.amount), if s.req.TopUp? then None else Some(s.source), s.target)]
  }

  ghost function WritesOf(s: Session): map<WalletId, Wallet>
    requires !s.req.Register?
  {
    if s.req.TopUp? then
      if Past(s, WriteTarget) then map[s.target := Credited(s, s.req.amount)] else map[]
    else
      if Past(s, WriteTarget) then map[s.source := Debited(s, s.req.amount), s.target := Credited(s, s.req.amount)]
      else if Past(s, WriteSource) then map[s.source := Debited(s, s.req.amount)] else map[]
  }

  ghost function EntriesOf(s: Session): seq<Entry>
    requires !s.req.Register?
  {
    var debit, credit :=
        Entry(s.id, s.source, Debit, Round(s.req.amount)), Entry(s.id, s.target, Credit, Round(s.req.amount));
    if s.req.TopUp? then
      if Past(s, EnterCredit) then [credit] else []
    else
      if Past(s, EnterCredit) then [debit, credit]
      else if Past(s, EnterDebit) then [debit] else []
  }

  function Debited(s: Session, amount: real): Wallet {
    Row(s, s.source).(balance := Round(Row(s, s.source).balance as real - amount))
  }

  function Credited(s: Session, amount: real): Wallet {
    Row(s, s.target).(balance := Round(Row(s, s.target).balance as real + amount))
  }

  /** The unlocked reads still hold: nothing ever takes a wallet away or changes its owner. */
  predicate ReadsHold(db: Db, s: Session) {
    match s.req
    case TopUp(user, _) => Past(s, Start) ==> Owns(db, user, s.target)
    case Transfer(user, to, _) =>
      && (Past(s, Start) ==> Owns(db, user, s.source) && s.source != to)
      && (Past(s, FindTarget) ==> s.target == to && to in db.wallets)
    case Register(_) => true
  }

  predicate Owns(db: Db, user: UserId, x: WalletId) {
    user in db.byOwner && db.byOwner[user] == x && x in db.wallets
  }

  /** The checks a session has been through held for the rows it locked. */
  predicate ChecksPassed(s: Session) {
    match s.req
    case TopUp(_, amount) =>
      && (Past(s, InsertTxn) ==> AmountFits(amount))
      && (Past(s, WriteTarget) ==> BalanceFits(Row(s, s.target).balance as real + amount))
    case Transfer(_, _, amount) =>
      && (Past(s, CheckFunds) ==> amount <= Row(s, s.source).balance as real)
      && (Past(s, InsertTxn) ==> AmountFits(amount))
      && (Past(s, WriteTarget) ==> BalanceFits(Row(s, s.target).balance as real + amount))
    case Register(_) => true
  }

  /** The locked reads are still the committed rows. */
  ghost predicate HeldCurrent(db: Db, s: Session) {
    && s.held.Keys == HeldIds(s)
    && forall x :: x in s.held ==> x in db.wallets && db.wallets[x] == s.held[x]
  }

  ghost predicate SessionOk(db: Db, s: Session) {
    && StageFits(s)
    && (s.stage.Done? <==> !s.outcome.Running?)
    && (s.outcome.Failed? ==> s.outcome.error != NilWallet)
    && HeldCurrent(db, s)
    && s.delta == DeltaOf(s)
    && ReadsHold(db, s)
    && ChecksPassed(s)
    && ClaimsFree(db, s)
  }

  ghost predicate ClaimsFree(db: Db, s: Session) {
    forall c :: Claims(s, c) ==> !Taken(db, c)
  }

  /** The lock table lists exactly the rows that sessions hold, each under its holder. */
  ghost predicate LocksOk(w: World) {
    && (forall x :: x in w.locks ==> w.locks[x] in w.sessions && x in w.sessions[w.locks[x]].held)
    && (forall sid, x :: sid in w.sessions && x in w.sessions[sid].held ==> x in w.locks && w.locks[x] == sid)
  }

  /** No key is claimed by two sessions. */
  ghost predicate ClaimsOk(w: World) {
    forall a, b, c :: a in w.sessions && b in w.sessions && Claims(w.sessions[a], c) && Claims(w.sessions[b], c) ==>
        a == b
  }

  /** The history lists each committed session exactly once, with its request and receipt, and no other. */
  ghost predicate LogOk(w: World) {
    && (forall i :: 0 <= i < |w.log| ==> Recorded(w, w.log[i]))
    && (forall i, j :: 0 <= i < j < |w.log| ==> w.log[i].sid != w.log[j].sid)
    && (forall sid :: sid in w.sessions && w.sessions[sid].outcome.Committed? ==>
        exists t :: t in w.log && t.sid == sid)
  }

  ghost predicate Recorded(w: World, t: Ticket) {
    && t.sid in w.sessions
    && t.order == OrderOf(w.sessions[t.sid])
    && w.sessions[t.sid].outcome == Committed(t.receipt)
  }

  ghost predicate Inv(w: World) {
    && Replay(w.log) == Some(w.db)
    && (forall sid :: sid in w.sessions ==> SessionOk(w.db, w.sessions[sid]))
    && LocksOk(w)
    && ClaimsOk(w)
    && LogOk(w)
  }

  /* ---- The history is a serial run ---- */

  lemma {:induction false} ReplayIsConsistent(log: seq<Ticket>)
    requires Replay(log).Some?
    ensures Consistent(Replay(log).value)
    decreases |log|
  {
    if log != [] {
      ReplayIsConsistent(log[..|log| - 1]);
      ApplyKeepsConsistent(Replay(log[..|log| - 1]).value, log[|log| - 1].order);
    }
  }

  /* ---- One step keeps the invariant ---- */

  lemma InitialHoldsInv(w: World)
    requires Initial(w)
    ensures Inv(w)
  {
  }

  /** One session changes, and not to committed: the history stays exact. */
  lemma ChangeKeepsLog(w: World, w': World, sid: Sid, s': Session)
    requires LogOk(w) && sid in w.sessions && w.sessions[sid].outcome.Running? && !s'.outcome.Committed?
    requires w'.log == w.log && w'.sessions == w.sessions[sid := s']
    ensures LogOk(w')
  {
    hide Claims;
    forall i | 0 <= i < |w'.log| ensures Recorded(w', w'.log[i]) {
      assert Recorded(w, w.log[i]);
    }
  }

  /** One session changes and claims nothing that another session claims. */
  lemma ChangeKeepsClaims(w: World, w': World, sid: Sid, s': Session)
    requires ClaimsOk(w) && sid in w.sessions && w'.sessions == w.sessions[sid := s']
    requires forall c :: Claims(s', c) && !Claims(w.sessions[sid], c) ==> !ClaimedElsewhere(w, sid, c)
    ensures ClaimsOk(w')
  {
    hide Claims;
    forall a, b, c | a in w'.sessions && b in w'.sessions && Claims(w'.sessions[a], c) && Claims(w'.sessions[b], c)
      ensures a == b
    {
    }
  }

  /** A session leaves: its rows are unlocked, and only its rows. */
  lemma OverKeepsLocks(w: World, sid: Sid, outcome: Outcome)
    requires LocksOk(w) && sid in w.sessions
    ensures LocksOk(Over(w, sid, outcome))
  {
    var w' := Over(w, sid, outcome);
    forall other, x | other in w'.sessions && x in w'.sessions[other].held
      ensures x in w'.locks && w'.locks[x] == other
    {
      if other != sid {
        assert w'.sessions[other] == w.sessions[other];
        assert w.locks[x] == other;
      }
    }
  }

  lemma OverIsOk(db: Db, s: Session, outcome: Outcome)
    requires StageFits(s) && !outcome.Running? && outcome != Failed(NilWallet)
    ensures SessionOk(db, s.(stage := Done, held := map[], delta := EMPTY, outcome := outcome))
  {
  }

  lemma RunningFits(w: World, sid: Sid)
    requires Inv(w) && sid in w.sessions && !w.sessions[sid].stage.Done?
    ensures StageFits(w.sessions[sid]) && w.sessions[sid].outcome.Running?
  {
    hide StageFits, HeldCurrent, DeltaOf, ReadsHold, ChecksPassed, ClaimsFree, LocksOk, ClaimsOk, LogOk, Replay;
    assert SessionOk(w.db, w.sessions[sid]);
  }

  /** One session changes, and the tables do not. */
  lemma ChangeKeepsInv(w: World, w': World, sid: Sid, s': Session)
    requires Inv(w) && sid in w.sessions && w.sessions[sid].outcome.Running? && !s'.outcome.Committed?
    requires w'.db == w.db && w'.log == w.log && w'.sessions == w.sessions[sid := s']
    requires SessionOk(w.db, s') && LocksOk(w')
    requires forall c :: Claims(s', c) && !Claims(w.sessions[sid], c) ==> !ClaimedElsewhere(w, sid, c)
    ensures Inv(w')
  {
    hide SessionOk, LocksOk, ClaimsOk, LogOk, Claims, Replay, ClaimedElsewhere;
    ChangeKeepsClaims(w, w', sid, s');
    ChangeKeepsLog(w, w', sid, s');
  }

  lemma OverKeepsInv(w: World, sid: Sid, error: Error)
    requires Inv(w) && sid in w.sessions && !w.sessions[sid].stage.Done? && error != NilWallet
    ensures Inv(Over(w, sid, Failed(error)))
  {
    RunningFits(w, sid);
    hide SessionOk, ClaimsOk, LogOk, StageFits, Replay, LocksOk, ClaimedElsewhere;
    var s := w.sessions[sid];
    OverIsOk(w.db, s, Failed(error));
    OverKeepsLocks(w, sid, Failed(error));
    ChangeKeepsInv(w, Over(w, sid, Failed(error)), sid,
                   s.(stage := Done, held := map[], delta := EMPTY, outcome := Failed(error)));
  }

  /** A session moves on without touching locks or committed tables. */
  lemma ReplaceKeepsInv(w: World, sid: Sid, s': Session)
    requires Inv(w) && sid in w.sessions
    requires w.sessions[sid].outcome.Running? && s'.outcome.Running?
    requires s'.held == w.sessions[sid].held && SessionOk(w.db, s')
    requires forall c :: Claims(s', c) && !Claims(w.sessions[sid], c) ==> !ClaimedElsewhere(w, sid, c)
    ensures Inv(w.(sessions := w.sessions[sid := s']))
  {
    hide SessionOk, ClaimsOk, LogOk, Claims, Replay;
    ChangeKeepsInv(w, w.(sessions := w.sessions[sid := s']), sid, s');
  }

  /** The row a locking stage asks for exists, and the session does not hold it yet. */
  lemma WantedExists(db: Db, s: Session)
    requires SessionOk(db, s) && AtLock(s)
    ensures Wanted(s) in db.wallets && Wanted(s) !in s.held
  {
    LessIsIrreflexive(s.source);
  }

  function Locked(db: Db, s: Session): Session
    requires Wanted(s) in db.wallets
  {
    s.(held := s.held[Wanted(s) := db.wallets[Wanted(s)]],
       stage := if s.req.TopUp? then InsertTxn else if s.stage.LockFirst? then LockSecond else CheckFunds)
  }

  lemma NothingWrittenBeforeTxn(s: Session)
    requires !s.req.Register? && !Past(s, InsertTxn)
    ensures DeltaOf(s) == EMPTY
  {
  }

  lemma LockedIsOk(db: Db, s: Session)
    requires SessionOk(db, s) && AtLock(s) && Wanted(s) in db.wallets
    ensures SessionOk(db, Locked(db, s))
  {
    var s' := Locked(db, s);
    hide Claims, DeltaOf;
    NothingWrittenBeforeTxn(s);
    NothingWrittenBeforeTxn(s');
    ClaimsFollowDelta(s, s');
    assert ClaimsFree(db, s');
    hide ClaimsFree;
    assert HeldIds(s') == HeldIds(s) + {Wanted(s)};
  }

  lemma AcquireKeepsLocks(w: World, sid: Sid, x: WalletId, s': Session, w': World)
    requires LocksOk(w) && sid in w.sessions && x !in w.locks && x in s'.held
    requires s'.held.Keys == w.sessions[sid].held.Keys + {x}
    requires w'.locks == w.locks[x := sid] && w'.sessions == w.sessions[sid := s']
    ensures LocksOk(w')
  {
  }

  lemma UnblockedRowIsFree(w: World, sid: Sid)
    requires LocksOk(w) && sid in w.sessions && AtLock(w.sessions[sid]) && !Blocked(w, sid)
    requires Wanted(w.sessions[sid]) !in w.sessions[sid].held
    ensures Wanted(w.sessions[sid]) !in w.locks
  {
    hide Wanted, Claims;
    var x := Wanted(w.sessions[sid]);
    assert x in w.locks ==> WaitsFor(w, sid, w.locks[x]);
  }

  lemma AcquireKeepsInv(w: World, sid: Sid)
    requires Inv(w) && sid in w.sessions && AtLock(w.sessions[sid]) && !Blocked(w, sid)
    ensures Inv(Acquire(w, sid))
  {
    RunningFits(w, sid);
    hide SessionOk, LocksOk, ClaimsOk, LogOk, Wanted, Blocked, Claims, Replay, StageFits;
    var s := w.sessions[sid];
    WantedExists(w.db, s);
    UnblockedRowIsFree(w, sid);
    var s' := Locked(w.db, s);
    LockedIsOk(w.db, s);
    AcquireKeepsLocks(w, sid, Wanted(s), s', Acquire(w, sid));
    ClaimsFollowDelta(s, s');
    hide ClaimedElsewhere;
    ChangeKeepsInv(w, Acquire(w, sid), sid, s');
  }

  lemma ClaimsFollowDelta(s: Session, s': Session)
    requires s'.delta == s.delta && s'.req == s.req
    ensures forall c :: Claims(s', c) == Claims(s, c)
  {
  }

  lemma StatusOfOnlyRow(t: Txn)
    ensures SetStatus([t], t.id, Completed) == [t.(status := Completed)]
  {
  }

  predicate Movable(s: Session) {
    StageFits(s) && !AtLock(s) && !s.stage.Commit? && !s.stage.Done?
  }

  lemma MoveKeepsShape(db: Db, s: Session, keys: Keys)
    requires Movable(s) && Move(db, s, keys).Next?
    ensures KeepsShape(s, Move(db, s, keys).session)
  {
    hide Move, KeepsShape;
    match s.req
    case TopUp(_, _) => TopUpKeepsShape(db, s, keys);
    case Transfer(_, _, _) => TransferKeepsShape(db, s, keys);
    case Register(_) => RegisterKeepsShape(db, s, keys);
  }

  /** A session goes on to its next stage with the request, the locked rows and the identity it had. */
  ghost predicate KeepsShape(s: Session, s': Session) {
    && StageFits(s') && !s'.stage.Done?
    && s'.req == s.req && s'.held == s.held && s'.outcome == s.outcome
    && HeldIds(s') == HeldIds(s)
  }

  lemma TopUpKeepsShape(db: Db, s: Session, keys: Keys)
    requires Movable(s) && s.req.TopUp? && Move(db, s, keys).Next?
    ensures KeepsShape(s, Move(db, s, keys).session)
  {
    hide MoveTransfer, MoveRegister, SetStatus, AmountFits, BalanceFits, Round, Row;
  }

  lemma TransferKeepsShape(db: Db, s: Session, keys: Keys)
    requires Movable(s) && s.req.Transfer? && Move(db, s, keys).Next?
    ensures KeepsShape(s, Move(db, s, keys).session)
  {
    hide MoveTopUp, MoveRegister, SetStatus, AmountFits, BalanceFits, Round, Row;
  }

  lemma RegisterKeepsShape(db: Db, s: Session, keys: Keys)
    requires Movable(s) && s.req.Register? && Move(db, s, keys).Next?
    ensures KeepsShape(s, Move(db, s, keys).session)
  {
    hide MoveTopUp, MoveTransfer, SetStatus, AmountFits, BalanceFits, Round, Row;
  }

  lemma TopUpWritesTxns(db: Db, s: Session, keys: Keys)
    requires Movable(s) && s.req.TopUp? && Move(db, s, keys).Next?
    requires s.delta.txns == TxnsOf(s)
    ensures Move(db, s, keys).session.delta.txns == TxnsOf(Move(db, s, keys).session)
  {
    hide MoveTransfer, MoveRegister, AmountFits, BalanceFits, Round, Row;
    if s.stage.MarkCompleted? {
      StatusOfOnlyRow(s.delta.txns[0]);
    }
    hide SetStatus;
  }

  lemma TransferPutsTxns(db: Db, s: Session, keys: Keys)
    requires Movable(s) && s.req.Transfer? && Move(db, s, keys).Next? && (s.stage.InsertTxn? || s.stage.MarkCompleted?)
    requires s.delta.txns == TxnsOf(s)
    ensures Move(db, s, keys).session.delta.txns == TxnsOf(Move(db, s, keys).session)
  {
    hide MoveTopUp, MoveRegister, AmountFits, BalanceFits, Round, Row;
    if s.stage.MarkCompleted? {
      StatusOfOnlyRow(s.delta.txns[0]);
    }
    hide SetStatus;
  }

  lemma TransferLeavesTxns(db: Db, s: Session, keys: Keys)
    requires Movable(s) && s.req.Transfer? && Move(db, s, keys).Next? && !s.stage.InsertTxn? && !s.stage.MarkCompleted?
    ensures var s' := Move(db, s, keys).session;
            && s'.delta.txns == s.delta.txns && Past(s', InsertTxn) == Past(s, InsertTxn)
            && Past(s', MarkCompleted) == Past(s, MarkCompleted)
            && (Past(s, InsertTxn) ==> s'.id == s.id && s'.source == s.source && s'.target == s.target)
  {
    hide MoveTopUp, MoveRegister, AmountFits, BalanceFits, Round, Row, SetStatus;
  }

  lemma TransferWritesTxns(db: Db, s: Session, keys: Keys)
    requires Movable(s) && s.req.Transfer? && Move(db, s, keys).Next?
    requires s.delta.txns == TxnsOf(s)
    ensures Move(db, s, keys).session.delta.txns == TxnsOf(Move(db, s, keys).session)
  {
    hide Move, Round;
    if s.stage.InsertTxn? || s.stage.MarkCompleted? {
      TransferPutsTxns(db, s, keys);
    } else {
      TransferLeavesTxns(db, s, keys);
      MoveKeepsShape(db, s, keys);
    }
  }

  lemma TopUpWritesRow(db: Db, s: Session, keys: Keys)
    requires Movable(s) && s.req.TopUp? && Move(db, s, keys).Next? && s.stage.WriteTarget?
    requires s.delta.wallets == WritesOf(s)
    ensures Move(db, s, keys).session.delta.wallets == WritesOf(Move(db, s, keys).session)
  {
    hide MoveTransfer, MoveRegister, AmountFits, BalanceFits, Round;
  }

  lemma TopUpLeavesRows(db: Db, s: Session, keys: Keys)
    requires Movable(s) && s.req.TopUp? && Move(db, s, keys).Next? && !s.stage.WriteTarget?
    ensures var s' := Move(db, s, keys).session;
            && s'.delta.wallets == s.delta.wallets
            && Past(s', WriteTarget) == Past(s, WriteTarget)
            && (Past(s, WriteTarget) ==> s'.source == s.source && s'.target == s.target)
  {
    hide MoveTransfer, MoveRegister, AmountFits, BalanceFits, Round, SetStatus, Row;
  }

  lemma TopUpWritesBalances(db: Db, s: Session, keys: Keys)
    requires Movable(s) && s.req.TopUp? && Move(db, s, keys).Next?
    requires s.delta.wallets == WritesOf(s)
    ensures Move(db, s, keys).session.delta.wallets == WritesOf(Move(db, s, keys).session)
  {
    hide Move, AmountFits, BalanceFits, Round;
    if s.stage.WriteTarget? {
      TopUpWritesRow(db, s, keys);
    } else {
      TopUpLeavesRows(db, s, keys);
      MoveKeepsShape(db, s, keys);
    }
  }

  lemma TransferWritesRow(db: Db, s: Session, keys: Keys)
    requires Movable(s) && s.req.Transfer? && Move(db, s, keys).Next? && (s.stage.WriteSource? || s.stage.WriteTarget?)
    requires s.delta.wallets == WritesOf(s)
    ensures Move(db, s, keys).session.delta.wallets == WritesOf(Move(db, s, keys).session)
  {
    hide MoveTopUp, MoveRegister, AmountFits, BalanceFits, Round;
  }

  lemma TransferLeavesRows(db: Db, s: Session, keys: Keys)
    requires Movable(s) && s.req.Transfer? && Move(db, s, keys).Next? && !s.stage.WriteSource? && !s.stage.WriteTarget?
    ensures var s' := Move(db, s, keys).session;
            && s'.delta.wallets == s.delta.wallets
            && Past(s', WriteSource) == Past(s, WriteSource) && Past(s', WriteTarget) == Past(s, WriteTarget)
            && (Past(s, WriteSource) ==> s'.source == s.source && s'.target == s.target)
  {
    hide MoveTopUp, MoveRegister, AmountFits, BalanceFits, Round, SetStatus, Row;
  }

  lemma TransferWritesBalances(db: Db, s: Session, keys: Keys)
    requires Movable(s) && s.req.Transfer? && Move(db, s, keys).Next?
    requires s.delta.wallets == WritesOf(s)
    ensures Move(db, s, keys).session.delta.wallets == WritesOf(Move(db, s, keys).session)
  {
    hide Move, AmountFits, BalanceFits, Round;
    if s.stage.WriteSource? || s.stage.WriteTarget? {
      TransferWritesRow(db, s, keys);
    } else {
      TransferLeavesRows(db, s, keys);
      MoveKeepsShape(db, s, keys);
    }
  }

  lemma TopUpWritesEntries(db: Db, s: Session, keys: Keys)
    requires Movable(s) && s.req.TopUp? && Move(db, s, keys).Next?
    requires s.delta.entries == EntriesOf(s)
    ensures Move(db, s, keys).session.delta.entries == EntriesOf(Move(db, s, keys).session)
  {
    hide MoveTransfer, MoveRegister, AmountFits, BalanceFits, Round, SetStatus, Row;
  }

  lemma TransferPutsEntries(db: Db, s: Session, keys: Keys)
    requires Movable(s) && s.req.Transfer? && Move(db, s, keys).Next? && (s.stage.EnterDebit? || s.stage.EnterCredit?)
    requires s.delta.entries == EntriesOf(s)
    ensures Move(db, s, keys).session.delta.entries == EntriesOf(Move(db, s, keys).session)
  {
    hide MoveTopUp, MoveRegister, AmountFits, BalanceFits, Round, Row, SetStatus;
  }

  lemma TransferLeavesEntries(db: Db, s: Session, keys: Keys)
    requires Movable(s) && s.req.Transfer? && Move(db, s, keys).Next? && !s.stage.EnterDebit? && !s.stage.EnterCredit?
    ensures var s' := Move(db, s, keys).session;
            && s'.delta.entries == s.delta.entries && Past(s', EnterDebit) == Past(s, EnterDebit)
            && Past(s', EnterCredit) == Past(s, EnterCredit)
            && (Past(s, EnterDebit) ==> s'.id == s.id && s'.source == s.source && s'.target == s.target)
  {
    hide MoveTopUp, MoveRegister, AmountFits, BalanceFits, Round, Row, SetStatus;
  }

  lemma TransferWritesEntries(db: Db, s: Session, keys: Keys)
    requires Movable(s) && s.req.Transfer? && Move(db, s, keys).Next?
    requires s.delta.entries == EntriesOf(s)
    ensures Move(db, s, keys).session.delta.entries == EntriesOf(Move(db, s, keys).session)
  {
    hide Move, Round;
    if s.stage.EnterDebit? || s.stage.EnterCredit? {
      TransferPutsEntries(db, s, keys);
    } else {
      TransferLeavesEntries(db, s, keys);
      MoveKeepsShape(db, s, keys);
    }
  }

  /** A payment writes neither users nor owners. */
  lemma TopUpWritesNoUsers(db: Db, s: Session, keys: Keys)
    requires Movable(s) && s.req.TopUp? && Move(db, s, keys).Next?
    ensures var delta := Move(db, s, keys).session.delta;
            delta.users == s.delta.users && delta.byEmail == s.delta.byEmail && delta.byOwner == s.delta.byOwner
  {
    hide MoveTransfer, MoveRegister, AmountFits, BalanceFits, Round, SetStatus, Row;
  }

  lemma TransferWritesNoUsers(db: Db, s: Session, keys: Keys)
    requires Movable(s) && s.req.Transfer? && Move(db, s, keys).Next?
    ensures var delta := Move(db, s, keys).session.delta;
            delta.users == s.delta.users && delta.byEmail == s.delta.byEmail && delta.byOwner == s.delta.byOwner
  {
    hide MoveTopUp, MoveRegister, AmountFits, BalanceFits, Round, SetStatus, Row;
  }

  lemma MoveWritesDelta(db: Db, s: Session, keys: Keys)
    requires Movable(s) && Move(db, s, keys).Next?
    requires s.delta == DeltaOf(s)
    ensures Move(db, s, keys).session.delta == DeltaOf(Move(db, s, keys).session)
  {
    if s.req.Register? {
      RegisterWritesDelta(db, s, keys);
    } else {
      hide TxnsOf, WritesOf, EntriesOf, Move;
      MoveKeepsShape(db, s, keys);
      if s.req.TopUp? {
        TopUpWritesNoUsers(db, s, keys);
        TopUpWritesTxns(db, s, keys);
        TopUpWritesBalances(db, s, keys);
        TopUpWritesEntries(db, s, keys);
      } else {
        TransferWritesNoUsers(db, s, keys);
        TransferWritesTxns(db, s, keys);
        TransferWritesBalances(db, s, keys);
        TransferWritesEntries(db, s, keys);
      }
    }
  }

  lemma RegisterWritesDelta(db: Db, s: Session, keys: Keys)
    requires Movable(s) && s.req.Register? && Move(db, s, keys).Next?
    requires s.delta == DeltaOf(s)
    ensures Move(db, s, keys).session.delta == DeltaOf(Move(db, s, keys).session)
  {
    hide MoveTopUp, MoveTransfer, TxnsOf, WritesOf, EntriesOf;
  }

  lemma TopUpKeepsReads(db: Db, s: Session, keys: Keys)
    requires Consistent(db) && Movable(s) && s.req.TopUp? && Move(db, s, keys).Next?
    requires ReadsHold(db, s)
    ensures ReadsHold(db, Move(db, s, keys).session)
  {
    hide MoveTransfer, MoveRegister, SetStatus, AmountFits, BalanceFits, Round, Row;
  }

  lemma TransferKeepsReads(db: Db, s: Session, keys: Keys)
    requires Consistent(db) && Movable(s) && s.req.Transfer? && Move(db, s, keys).Next?
    requires ReadsHold(db, s)
    ensures ReadsHold(db, Move(db, s, keys).session)
  {
    hide MoveTopUp, MoveRegister, SetStatus, AmountFits, BalanceFits, Round, Row;
  }

  /** The checks depend on the rows that are already locked, and these stay what they are. */
  lemma TopUpKeepsChecks(db: Db, s: Session, keys: Keys)
    requires Movable(s) && s.req.TopUp? && Move(db, s, keys).Next? && ChecksPassed(s)
    ensures ChecksPassed(Move(db, s, keys).session)
  {
    hide MoveTransfer, MoveRegister, SetStatus, AmountFits, BalanceFits, Round;
  }

  lemma TransferKeepsChecks(db: Db, s: Session, keys: Keys)
    requires Movable(s) && s.req.Transfer? && Move(db, s, keys).Next? && ChecksPassed(s)
    ensures ChecksPassed(Move(db, s, keys).session)
  {
    hide MoveTopUp, MoveRegister, SetStatus, AmountFits, BalanceFits, Round;
  }

  lemma MoveKeepsReads(db: Db, s: Session, keys: Keys)
    requires Consistent(db) && Movable(s) && Move(db, s, keys).Next?
    requires ReadsHold(db, s) && ChecksPassed(s)
    ensures ReadsHold(db, Move(db, s, keys).session) && ChecksPassed(Move(db, s, keys).session)
  {
    MoveKeepsShape(db, s, keys);
    hide Move, Consistent;
    match s.req
    case TopUp(_, _) =>
      TopUpKeepsReads(db, s, keys);
      TopUpKeepsChecks(db, s, keys);
    case Transfer(_, _, _) =>
      TransferKeepsReads(db, s, keys);
      TransferKeepsChecks(db, s, keys);
    case Register(_) =>
  }

  /** The keys a statement inserts. */
  predicate Claiming(s: Session, keys: Keys, c: Claim) {
    match s.stage
    case InsertTxn => c == TxnClaim(keys.id)
    case InsertUser => c == UserClaim(keys.id) || (s.req.Register? && c == EmailClaim(s.req.email))
    case InsertWallet => c == WalletClaim(keys.wallet)
    case _ => false
  }

  lemma MoveClaims(db: Db, s: Session, keys: Keys, c: Claim)
    requires Movable(s) && Move(db, s, keys).Next? && s.delta == DeltaOf(s)
    requires Claims(Move(db, s, keys).session, c)
    ensures Claims(s, c) || Claiming(s, keys, c)
  {
    MoveWritesDelta(db, s, keys);
    MoveKeepsShape(db, s, keys);
    MoveDrawsKeys(db, s, keys);
    hide Move, HeldIds, WritesOf, EntriesOf;
  }

  /** Only an insert takes a key, and it takes the one drawn for it. */
  lemma MoveDrawsKeys(db: Db, s: Session, keys: Keys)
    requires Movable(s) && Move(db, s, keys).Next?
    ensures var s' := Move(db, s, keys).session;
            && (s.stage.InsertTxn? || s.stage.InsertUser? ==> s'.id == keys.id)
            && (!s.stage.InsertTxn? && !s.stage.InsertUser? ==> s'.id == s.id)
            && (s.req.Register? ==> s'.target == if s.stage.InsertWallet? then keys.wallet else s.target)
            && (Past(s', InsertTxn) && !s.req.Register? ==> Past(s, InsertTxn) || s.stage.InsertTxn?)
            && (Past(s', InsertUser) && s.req.Register? ==> Past(s, InsertUser) || s.stage.InsertUser?)
            && (Past(s', InsertWallet) && s.req.Register? ==> Past(s, InsertWallet) || s.stage.InsertWallet?)
  {
    hide AmountFits, BalanceFits, Round, SetStatus, Row;
  }

  lemma NewClaimsAreFree(w: World, sid: Sid, keys: Keys, c: Claim)
    requires sid in w.sessions && !Blocked(w, sid) && KeysAreFree(w, sid, keys)
    requires StageFits(w.sessions[sid]) && Move(w.db, w.sessions[sid], keys).Next?
    requires Claiming(w.sessions[sid], keys, c)
    ensures Free(w, sid, c)
  {
    hide Claims;
    forall other | other in w.sessions && other != sid ensures !Claims(w.sessions[other], c) {
      assert !WaitsFor(w, sid, other);
    }
  }

  lemma MoveKeepsInv(w: World, sid: Sid, keys: Keys)
    requires Inv(w) && sid in w.sessions && Movable(w.sessions[sid])
    requires !Blocked(w, sid) && KeysAreFree(w, sid, keys) && Move(w.db, w.sessions[sid], keys).Next?
    ensures Inv(w.(sessions := w.sessions[sid := Move(w.db, w.sessions[sid], keys).session]))
  {
    var s := w.sessions[sid];
    var s' := Move(w.db, s, keys).session;
    ReplayIsConsistent(w.log);
    MoveKeepsShape(w.db, s, keys);
    MoveWritesDelta(w.db, s, keys);
    MoveKeepsReads(w.db, s, keys);
    hide Move, DeltaOf, HeldIds, StageFits, ReadsHold, ChecksPassed, Claims, Claiming, KeysAreFree, Blocked, Free;
    forall c | Claims(s', c) && !Claims(s, c) ensures Free(w, sid, c) {
      MoveClaims(w.db, s, keys, c);
      NewClaimsAreFree(w, sid, keys, c);
    }
    FreeIsUntaken(w, sid);
    assert ClaimsFree(w.db, s');
    hide ClaimsFree;
    ReplaceKeepsInv(w, sid, s');
  }

  lemma FreeIsUntaken(w: World, sid: Sid)
    ensures forall c :: Free(w, sid, c) ==> !Taken(w.db, c) && !ClaimedElsewhere(w, sid, c)
  {
  }

  /* ---- A commit is one step of the serial run ---- */

  lemma TxnIdIsNew(db: Db, s: Session)
    requires ClaimsFree(db, s) && s.delta.txns != [] && s.delta.txns[0].id == s.id
    ensures !HasTxn(db, s.id)
  {
    assert Claims(s, TxnClaim(s.id));
  }

  lemma TopUpAtCommit(db: Db, s: Session)
    requires SessionOk(db, s) && s.stage.Commit? && s.req.TopUp?
    ensures Owns(db, s.req.user, s.target) && Row(s, s.target) == db.wallets[s.target]
    ensures AmountFits(s.req.amount) && BalanceFits(db.wallets[s.target].balance as real + s.req.amount)
    ensures s.delta == Db(map[], map[], map[s.target := Credited(s, s.req.amount)], map[], TxnsOf(s), EntriesOf(s))
    ensures !HasTxn(db, s.id)
  {
    hide AmountFits, BalanceFits, Round, ClaimsFree;
    TxnIdIsNew(db, s);
  }

  /** The atomic top-up, on a session whose every read still holds. */
  lemma TopUpIsApplied(db: Db, s: Session)
    requires s.stage.Commit? && s.req.TopUp? && Owns(db, s.req.user, s.target)
    requires Row(s, s.target) == db.wallets[s.target]
    requires AmountFits(s.req.amount) && BalanceFits(db.wallets[s.target].balance as real + s.req.amount)
    requires !HasTxn(db, s.id)
    ensures ApplyTopUp(db, s.id, s.req.user, s.req.amount) == Accepted(
      db.(wallets := db.wallets[s.target := Credited(s, s.req.amount)],
          txns := db.txns + TxnsOf(s), entries := db.entries + EntriesOf(s)),
      ReceiptOf(s))
  {
    hide AmountFits, BalanceFits, Round, Row, HasTxn;
  }

  lemma MergeOne<K, V>(m: map<K, V>, a: K, x: V)
    ensures m + map[a := x] == m[a := x]
  {
  }

  lemma TopUpCommitsSerially(db: Db, s: Session)
    requires SessionOk(db, s) && s.stage.Commit? && s.req.TopUp?
    ensures Apply(db, OrderOf(s)) == Accepted(Flush(db, s.delta), ReceiptOf(s))
  {
    hide SessionOk, AmountFits, BalanceFits, Round, Row, HasTxn, Owns, Credited, ApplyTopUp, ReceiptOf, TxnsOf;
    hide EntriesOf;
    TopUpAtCommit(db, s);
    TopUpIsApplied(db, s);
    MergeOne(db.wallets, s.target, Credited(s, s.req.amount));
  }

  lemma TransferAtCommit(db: Db, s: Session)
    requires SessionOk(db, s) && s.stage.Commit? && s.req.Transfer?
    ensures Owns(db, s.req.user, s.source) && s.source != s.target == s.req.to && s.target in db.wallets
    ensures Row(s, s.source) == db.wallets[s.source] && Row(s, s.target) == db.wallets[s.target]
    ensures s.req.amount <= db.wallets[s.source].balance as real
    ensures AmountFits(s.req.amount) && BalanceFits(db.wallets[s.target].balance as real + s.req.amount)
    ensures s.delta
            == Db(map[], map[], map[s.source := Debited(s, s.req.amount), s.target := Credited(s, s.req.amount)],
                          map[], TxnsOf(s), EntriesOf(s))
    ensures !HasTxn(db, s.id)
  {
    hide AmountFits, BalanceFits, Round, ClaimsFree;
    TxnIdIsNew(db, s);
  }

  lemma MergeTwo<K, V>(m: map<K, V>, a: K, x: V, b: K, y: V)
    ensures m + map[a := x, b := y] == m[a := x][b := y]
  {
  }

  /** The atomic transfer, on a session whose every read still holds. */
  lemma TransferIsApplied(db: Db, s: Session)
    requires s.stage.Commit? && s.req.Transfer?
    requires Owns(db, s.req.user, s.source) && s.source != s.target == s.req.to && s.target in db.wallets
    requires Row(s, s.source) == db.wallets[s.source] && Row(s, s.target) == db.wallets[s.target]
    requires s.req.amount <= db.wallets[s.source].balance as real
    requires AmountFits(s.req.amount) && BalanceFits(db.wallets[s.target].balance as real + s.req.amount)
    requires !HasTxn(db, s.id)
    ensures ApplyTransfer(db, s.id, s.req.user, s.req.to, s.req.amount) == Accepted(
      db.(wallets := db.wallets[s.source := Debited(s, s.req.amount)][s.target := Credited(s, s.req.amount)],
          txns := db.txns + TxnsOf(s), entries := db.entries + EntriesOf(s)),
      ReceiptOf(s))
  {
    hide AmountFits, BalanceFits, Round, Row, HasTxn;
  }

  lemma TransferCommitsSerially(db: Db, s: Session)
    requires SessionOk(db, s) && s.stage.Commit? && s.req.Transfer?
    ensures Apply(db, OrderOf(s)) == Accepted(Flush(db, s.delta), ReceiptOf(s))
  {
    hide SessionOk, AmountFits, BalanceFits, Round, Row, HasTxn, Owns, Debited, Credited, ApplyTransfer, ReceiptOf;
    hide TxnsOf, EntriesOf;
    TransferAtCommit(db, s);
    TransferIsApplied(db, s);
    MergeTwo(db.wallets, s.source, Debited(s, s.req.amount), s.target, Credited(s, s.req.amount));
  }

  lemma RegisterAtCommit(db: Db, s: Session)
    requires SessionOk(db, s) && s.stage.Commit? && s.req.Register?
    ensures s.req.email !in db.byEmail && s.id !in db.users && s.id !in db.byOwner && s.target !in db.wallets
    ensures s.delta == Db(map[s.id := s.req.email], map[s.req.email := s.id], map[s.target := Wallet(s.id, 0)],
                          map[s.id := s.target], [], [])
  {
    hide HeldCurrent, ReadsHold, ChecksPassed;
    assert Claims(s, UserClaim(s.id)) && Claims(s, EmailClaim(s.req.email)) && Claims(s, WalletClaim(s.target));
  }

  lemma RegisterCommitsSerially(db: Db, s: Session)
    requires SessionOk(db, s) && s.stage.Commit? && s.req.Register?
    ensures Apply(db, OrderOf(s)) == Accepted(Flush(db, s.delta), ReceiptOf(s))
  {
    hide SessionOk;
    RegisterAtCommit(db, s);
    MergeOne(db.users, s.id, s.req.email);
    MergeOne(db.byEmail, s.req.email, s.id);
    MergeOne(db.wallets, s.target, Wallet(s.id, 0));
    MergeOne(db.byOwner, s.id, s.target);
  }

  lemma CommitsSerially(db: Db, s: Session)
    requires SessionOk(db, s) && s.stage.Commit?
    ensures Apply(db, OrderOf(s)) == Accepted(Flush(db, s.delta), ReceiptOf(s))
  {
    hide SessionOk, Apply, Flush, ReceiptOf, OrderOf;
    match s.req
    case TopUp(_, _) => TopUpCommitsSerially(db, s);
    case Transfer(_, _, _) => TransferCommitsSerially(db, s);
    case Register(_) => RegisterCommitsSerially(db, s);
  }

  /** What a commit writes: rows it holds, rows it claims, and never the owner of an existing wallet. */
  ghost predicate Confined(db: Db, s: Session) {
    && (forall x :: x in s.delta.wallets && x in db.wallets ==>
        x in s.held && s.delta.wallets[x].owner == db.wallets[x].owner)
    && (forall u :: u in s.delta.byOwner ==> u !in db.byOwner)
  }

  lemma PaymentIsConfined(db: Db, s: Session)
    requires HeldCurrent(db, s) && StageFits(s) && !s.req.Register? && s.delta == DeltaOf(s)
    ensures Confined(db, s)
  {
    hide Round, TxnsOf, EntriesOf;
  }

  lemma RegisterIsConfined(db: Db, s: Session)
    requires ClaimsFree(db, s) && s.req.Register? && s.delta == DeltaOf(s)
    ensures Confined(db, s)
  {
    assert Past(s, InsertUser) ==> Claims(s, UserClaim(s.id));
    assert Past(s, InsertWallet) ==> Claims(s, WalletClaim(s.target));
  }

  /** A commit takes only the keys it claimed. */
  lemma CommitTakesClaims(db: Db, s: Session, c: Claim)
    requires SessionOk(db, s) && Taken(Flush(db, s.delta), c)
    ensures Taken(db, c) || Claims(s, c)
  {
    WalletsAreClaimedOrHeld(db, s);
    OwnersAreClaimed(db, s);
    hide SessionOk;
    if c.TxnClaim? && !Taken(db, c) {
      var t :| t in db.txns + s.delta.txns && t.id == c.txn;
      assert t in s.delta.txns;
    }
  }

  lemma WalletsAreClaimedOrHeld(db: Db, s: Session)
    requires SessionOk(db, s)
    ensures forall x :: x in s.delta.wallets ==> x in db.wallets || Claims(s, WalletClaim(x))
  {
    hide ClaimsFree, ReadsHold, ChecksPassed, TxnsOf, EntriesOf, Round, Less;
  }

  lemma OwnersAreClaimed(db: Db, s: Session)
    requires SessionOk(db, s)
    ensures s.delta.byOwner.Keys <= s.delta.users.Keys
  {
    hide HeldCurrent, ClaimsFree, ReadsHold, ChecksPassed, TxnsOf, EntriesOf, WritesOf;
  }

  /** Another session does not notice the commit: it holds other rows, and its reads only get older. */
  lemma OthersSurviveCommit(db: Db, s: Session, other: Session)
    requires SessionOk(db, s) && SessionOk(db, other)
    requires forall x :: x in other.held ==> x !in s.held
    requires forall c :: !(Claims(s, c) && Claims(other, c))
    ensures SessionOk(Flush(db, s.delta), other)
  {
    assert Confined(db, s) by {
      if s.req.Register? {
        RegisterIsConfined(db, s);
      } else {
        PaymentIsConfined(db, s);
      }
    }
    forall c | Claims(other, c) ensures !Taken(Flush(db, s.delta), c) {
      if Taken(Flush(db, s.delta), c) {
        CommitTakesClaims(db, s, c);
      }
    }
    hide Taken, Claims, DeltaOf, HeldIds, ChecksPassed, StageFits;
  }

  lemma CommitExtendsReplay(w: World, sid: Sid)
    requires Inv(w) && sid in w.sessions && w.sessions[sid].stage.Commit?
    ensures Replay(CommitSession(w, sid).log) == Some(CommitSession(w, sid).db)
  {
    hide SessionOk, LocksOk, ClaimsOk, LogOk, Flush, ReceiptOf, Apply, OrderOf;
    CommitsSerially(w.db, w.sessions[sid]);
    var log := CommitSession(w, sid).log;
    assert log[..|log| - 1] == w.log;
  }

  lemma CommitKeepsInv(w: World, sid: Sid)
    requires Inv(w) && sid in w.sessions && w.sessions[sid].stage.Commit?
    ensures Inv(CommitSession(w, sid))
  {
    assert w.sessions[sid].outcome.Running?;
    hide SessionOk, LocksOk, ClaimsOk, LogOk, Flush, ReceiptOf, Apply, OrderOf, Replay;
    CommitExtendsReplay(w, sid);
    OverKeepsLocks(w, sid, Committed(ReceiptOf(w.sessions[sid])));
    LocksIgnoreTables(Over(w, sid, Committed(ReceiptOf(w.sessions[sid]))), CommitSession(w, sid));
    CommitKeepsClaims(w, sid);
    CommitKeepsLog(w, sid);
    CommitKeepsSessions(w, sid);
  }

  lemma LocksIgnoreTables(w: World, w': World)
    requires LocksOk(w) && w'.locks == w.locks && w'.sessions == w.sessions
    ensures LocksOk(w')
  {
  }

  lemma CommitKeepsClaims(w: World, sid: Sid)
    requires ClaimsOk(w) && sid in w.sessions
    ensures ClaimsOk(CommitSession(w, sid))
  {
    var w' := CommitSession(w, sid);
    assert forall c :: !Claims(w'.sessions[sid], c);
    ChangeKeepsClaims(w, w', sid, w'.sessions[sid]);
  }

  lemma CommitKeepsLog(w: World, sid: Sid)
    requires LogOk(w) && sid in w.sessions && w.sessions[sid].outcome.Running?
    ensures LogOk(CommitSession(w, sid))
  {
    var s := w.sessions[sid];
    var w' := CommitSession(w, sid);
    hide Flush, ReceiptOf;
    forall i | 0 <= i < |w'.log| ensures Recorded(w', w'.log[i]) {
      if i < |w.log| {
        assert Recorded(w, w.log[i]);
      }
    }
    forall other | other in w'.sessions && w'.sessions[other].outcome.Committed?
      ensures exists t :: t in w'.log && t.sid == other
    {
      if other == sid {
        assert w'.log[|w.log|].sid == sid;
      } else {
        var t :| t in w.log && t.sid == other;
        assert t in w'.log;
      }
    }
  }

  lemma HoldersAreApart(w: World, a: Sid, b: Sid)
    requires LocksOk(w) && a in w.sessions && b in w.sessions && a != b
    ensures forall x :: x in w.sessions[a].held ==> x !in w.sessions[b].held
  {
    forall x | x in w.sessions[a].held ensures x !in w.sessions[b].held {
      assert w.locks[x] == a;
    }
  }

  lemma CommitKeepsSessions(w: World, sid: Sid)
    requires Inv(w) && sid in w.sessions && w.sessions[sid].stage.Commit?
    ensures forall other :: other in w.sessions ==>
              SessionOk(Flush(w.db, w.sessions[sid].delta), CommitSession(w, sid).sessions[other])
  {
    var s := w.sessions[sid];
    assert StageFits(s);
    hide SessionOk, LocksOk, LogOk, Replay, Flush, Claims, StageFits, ReceiptOf;
    forall other | other in w.sessions
      ensures SessionOk(Flush(w.db, s.delta), CommitSession(w, sid).sessions[other])
    {
      if other == sid {
        OverIsOk(Flush(w.db, s.delta), s, Committed(ReceiptOf(s)));
      } else {
        HoldersAreApart(w, other, sid);
        OthersSurviveCommit(w.db, s, w.sessions[other]);
      }
    }
  }

  lemma MoveFindsRows(db: Db, s: Session, keys: Keys)
    ensures Move(db, s, keys).Stop? ==> Move(db, s, keys).error != NilWallet
  {
    hide AmountFits, BalanceFits, Round, SetStatus, Row;
  }

  lemma StepKeepsInv(w: World, a: Action)
    requires Inv(w) && Enabled(w, a)
    ensures Inv(Step(w, a))
  {
    var s := w.sessions[a.sid];
    RunningFits(w, a.sid);
    hide Inv, StageFits, Over, Acquire, CommitSession, Blocked, KeysAreFree, Move;
    match a
    case Fail(sid) => OverKeepsInv(w, sid, Unavailable);
    case Advance(sid, keys) =>
      if AtLock(s) {
        AcquireKeepsInv(w, sid);
      } else if s.stage.Commit? {
        CommitKeepsInv(w, sid);
      } else if Move(w.db, s, keys).Next? {
        MoveKeepsInv(w, sid, keys);
      } else {
        MoveFindsRows(w.db, s, keys);
        OverKeepsInv(w, sid, Move(w.db, s, keys).error);
      }
  }

  lemma {:induction false} RunKeepsInv(w: World, run: seq<Action>)
    requires Inv(w) && IsRun(w, run)
    ensures Inv(After(w, run))
    decreases |run|
  {
    if run != [] {
      hide Inv;
      StepKeepsInv(w, run[0]);
      RunKeepsInv(Step(w, run[0]), run[1..]);
    }
  }
}
