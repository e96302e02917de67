/**
 The service methods as they are written: one statement after another against a shared database, on
 which other requests move between any two of them. Each method is proved to be one session of the
 protocol, so whatever holds of the runs of the protocol holds of these methods.
 */
module Service {
  import opened Wrappers
  import opened Money
  import opened WalletOrder
  import opened Tables
  import opened Serial
  import opened Sessions
  import opened Serializability
  import opened Liveness
  import opened Guarantees
  import opened Answers

  /** Some run of the protocol leads from one state to the other. */
  ghost predicate Leads(w: World, w': World) {
    exists run :: IsRun(w, run) && After(w, run) == w'
  }

  lemma {:induction false} RunsJoin(w: World, a: seq<Action>, b: seq<Action>)
    requires IsRun(w, a) && IsRun(After(w, a), b)
    ensures IsRun(w, a + b) && After(w, a + b) == After(After(w, a), b)
    decreases |a|
  {
    if a == [] {
      assert a + b == b;
    } else {
      hide Step, Enabled;
      RunsJoin(Step(w, a[0]), a[1..], b);
      assert (a + b)[0] == a[0] && (a + b)[1..] == a[1..] + b;
    }
  }

  lemma LeadsToItself(w: World)
    ensures Leads(w, w)
  {
    assert IsRun(w, []) && After(w, []) == w;
  }

  lemma LeadsOn(w: World, w': World, a: Action)
    requires Leads(w, w') && Enabled(w', a)
    ensures Leads(w, Step(w', a))
  {
    hide Step, Enabled;
    var run :| IsRun(w, run) && After(w, run) == w';
    assert IsRun(w', [a]) by {
      assert [a][1..] == [];
    }
    assert After(w', [a]) == Step(w', a) by {
      assert [a][1..] == [];
    }
    RunsJoin(w, run, [a]);
  }

  lemma LeadsFurther(a: World, b: World, c: World)
    requires Leads(a, b) && Leads(b, c)
    ensures Leads(a, c)
  {
    var front :| IsRun(a, front) && After(a, front) == b;
    var back :| IsRun(b, back) && After(b, back) == c;
    RunsJoin(a, front, back);
  }

  lemma LeadsKeepsInv(w: World, w': World)
    requires Inv(w) && Leads(w, w')
    ensures Inv(w')
  {
    hide Inv;
    var run :| IsRun(w, run) && After(w, run) == w';
    RunKeepsInv(w, run);
  }

  /* ---- What the next statement of a session is ---- */

  /** The stage after the current one, in program order. */
  function NextStage(s: Session): Stage {
    match s.stage
    case Start => if s.req.Transfer? then FindTarget else Begin
    case FindTarget => Begin
    case Begin => if s.req.Register? then InsertUser else LockFirst
    case LockFirst => if s.req.Transfer? then LockSecond else InsertTxn
    case LockSecond => CheckFunds
    case CheckFunds => InsertTxn
    case InsertTxn => if s.req.Transfer? then WriteSource else WriteTarget
    case WriteSource => WriteTarget
    case WriteTarget => if s.req.Transfer? then EnterDebit else EnterCredit
    case EnterDebit => EnterCredit
    case EnterCredit => MarkCompleted
    case MarkCompleted => Commit
    case InsertUser => InsertWallet
    case InsertWallet => Commit
    case Commit => Done
    case Done => Done
  }

  predicate Inserts(s: Session, kind: Kind, amount: real, source: Option<WalletId>, target: WalletId) {
    && s.stage.InsertTxn? && !s.req.Register? && amount == s.req.amount && target == s.target
    && kind == (if s.req.TopUp? then TopUpKind else TransferKind)
    && source == (if s.req.TopUp? then None else Some(s.source))
  }

  predicate Writes(s: Session, x: WalletId, balance: real) {
    || (s.stage.WriteSource? && s.req.Transfer? && x == s.source
        && balance == Row(s, x).balance as real - s.req.amount)
    || (s.stage.WriteTarget? && !s.req.Register? && x == s.target
        && balance == Row(s, x).balance as real + s.req.amount)
  }

  predicate Enters(s: Session, txn: TxnId, x: WalletId, side: Side, amount: real) {
    && !s.req.Register? && txn == s.id && amount == s.req.amount
    && ((s.stage.EnterDebit? && s.req.Transfer? && x == s.source && side == Debit)
        || (s.stage.EnterCredit? && x == s.target && side == Credit))
  }

  /* ---- The session after each statement ---- */

  function WithRow(s: Session, x: WalletId, row: Wallet): Session {
    s.(stage := NextStage(s), held := s.held[x := row])
  }

  function WithTxn(s: Session, t: Txn): Session {
    s.(stage := NextStage(s), id := t.id, delta := s.delta.(txns := s.delta.txns + [t]))
  }

  function WithBalance(s: Session, x: WalletId, balance: real): Session {
    s.(stage := NextStage(s),
       delta := s.delta.(wallets := s.delta.wallets[x := Row(s, x).(balance := Round(balance))]))
  }

  function WithEntry(s: Session, e: Entry): Session {
    s.(stage := NextStage(s), delta := s.delta.(entries := s.delta.entries + [e]))
  }

  function WithStatus(s: Session, txn: TxnId, status: Status): Session {
    s.(stage := NextStage(s), delta := s.delta.(txns := SetStatus(s.delta.txns, txn, status)))
  }

  function WithUser(s: Session, user: UserId, email: Email): Session {
    s.(stage := NextStage(s), id := user,
       delta := s.delta.(users := s.delta.users[user := email], byEmail := s.delta.byEmail[email := user]))
  }

  function WithWallet(s: Session, x: WalletId, row: Wallet): Session {
    s.(stage := NextStage(s), target := x,
       delta := s.delta.(wallets := s.delta.wallets[x := row], byOwner := s.delta.byOwner[row.owner := x]))
  }

  /** The session may end here with this error: it failed on the way, or its statement was refused. */
  ghost predicate CanStop(w: World, sid: Sid, error: Error) {
    && sid in w.sessions && !w.sessions[sid].stage.Done?
    && (error == Unavailable
        || exists keys :: Enabled(w, Advance(sid, keys)) && Step(w, Advance(sid, keys)) == Over(w, sid, Failed(error)))
  }

  lemma StopsHere(w: World, sid: Sid, keys: Keys, error: Error)
    requires sid in w.sessions && Movable(w.sessions[sid]) && !Blocked(w, sid) && KeysAreFree(w, sid, keys)
    requires Move(w.db, w.sessions[sid], keys) == Stop(error)
    ensures CanStop(w, sid, error)
  {
    hide Blocked, KeysAreFree, Move, Over;
    assert Enabled(w, Advance(sid, keys)) && Step(w, Advance(sid, keys)) == Over(w, sid, Failed(error));
  }

  lemma OnlyLocksBlock(w: World, sid: Sid)
    requires sid in w.sessions && !AtLock(w.sessions[sid]) && !w.sessions[sid].stage.InsertUser?
    ensures !Blocked(w, sid)
  {
  }

  lemma MovesOn(start: World, w: World, sid: Sid, keys: Keys, s': Session)
    requires Leads(start, w) && sid in w.sessions && Movable(w.sessions[sid])
    requires !Blocked(w, sid) && KeysAreFree(w, sid, keys)
    requires Move(w.db, w.sessions[sid], keys) == Next(s')
    ensures Leads(start, w.(sessions := w.sessions[sid := s']))
  {
    hide Blocked, KeysAreFree, Move, Leads;
    assert Step(w, Advance(sid, keys)) == w.(sessions := w.sessions[sid := s']);
    LeadsOn(start, w, Advance(sid, keys));
  }

  /* ---- When nothing interferes ---- */

  /** No other session holds a lock or has written anything. */
  ghost predicate Undisturbed(w: World, sid: Sid) {
    && (forall x :: x in w.locks ==> w.locks[x] == sid)
    && (forall other :: other in w.sessions && other != sid ==> w.sessions[other].delta == EMPTY)
  }

  /** How many keys the request still draws. */
  function KeysNeeded(s: Session): nat {
    if !s.req.Register? then (if Rank(s.stage) > Rank(InsertTxn) then 0 else 1)
    else if Rank(s.stage) > Rank(InsertWallet) then 0
    else if Rank(s.stage) > Rank(InsertUser) then 1
    else 2
  }

  lemma MoveNeedsNoMore(db: Db, s: Session, keys: Keys)
    requires Movable(s) && Move(db, s, keys).Next?
    ensures KeysNeeded(Move(db, s, keys).session) <= KeysNeeded(s)
  {
    MoveKeepsShape(db, s, keys);
    MoveRaisesRank(db, s, keys);
    hide Move;
  }

  ghost predicate Unused(db: Db, keys: Keys) {
    !Taken(db, TxnClaim(keys.id)) && !Taken(db, UserClaim(keys.id)) && !Taken(db, WalletClaim(keys.wallet))
  }

  ghost predicate Quiet(w: World, sid: Sid, draws: seq<Keys>) {
    && sid in w.sessions
    && Undisturbed(w, sid)
    && KeysNeeded(w.sessions[sid]) <= |draws|
    && forall keys :: keys in draws ==> Unused(w.db, keys)
  }

  lemma QuietIsUnblocked(w: World, sid: Sid, draws: seq<Keys>)
    requires Quiet(w, sid, draws)
    ensures !Blocked(w, sid)
    ensures forall keys :: Unused(w.db, keys) ==> KeysAreFree(w, sid, keys)
  {
    forall c ensures !ClaimedElsewhere(w, sid, c) {
    }
  }

  /** The request's own step leaves everyone else as quiet as before. */
  lemma QuietGoesOn(w: World, sid: Sid, draws: seq<Keys>, s': Session, locks': map<WalletId, Sid>, draws': seq<Keys>)
    requires Quiet(w, sid, draws)
    requires forall x :: x in locks' ==> locks'[x] == sid || (x in w.locks && locks'[x] == w.locks[x])
    requires KeysNeeded(s') + |draws| <= KeysNeeded(w.sessions[sid]) + |draws'|
    requires forall keys :: keys in draws' ==> keys in draws
    ensures Quiet(w.(locks := locks', sessions := w.sessions[sid := s']), sid, draws')
  {
    hide Unused, KeysNeeded;
  }

  predicate Inserting(s: Session) {
    s.stage.InsertTxn? || s.stage.InsertUser? || s.stage.InsertWallet?
  }

  /** Each statement that draws a key uses up one of the keys needed. */
  lemma QuietNext(w: World, sid: Sid, draws: seq<Keys>, next: Session, locks': map<WalletId, Sid>)
    requires Quiet(w, sid, draws)
    requires var s := w.sessions[sid]; StageFits(s) && !s.stage.Done? && next.req == s.req && next.stage == NextStage(s)
    requires forall x :: x in locks' ==> locks'[x] == sid || (x in w.locks && locks'[x] == w.locks[x])
    ensures Inserting(w.sessions[sid]) ==> draws != []
    ensures Quiet(w.(locks := locks', sessions := w.sessions[sid := next]), sid,
                  if Inserting(w.sessions[sid]) then draws[1..] else draws)
  {
    NextNeeds(w.sessions[sid], next);
    QuietGoesOn(w, sid, draws, next, locks', if Inserting(w.sessions[sid]) then draws[1..] else draws);
  }

  lemma NextNeeds(s: Session, next: Session)
    requires StageFits(s) && !s.stage.Done? && next.req == s.req && next.stage == NextStage(s)
    ensures KeysNeeded(next) == KeysNeeded(s) - if Inserting(s) then 1 else 0
  {
  }

  lemma QuietDraw(w: World, sid: Sid, draws: seq<Keys>)
    requires Quiet(w, sid, draws) && StageFits(w.sessions[sid]) && Inserting(w.sessions[sid])
    ensures draws != [] && KeysAreFree(w, sid, draws[0])
  {
    QuietIsUnblocked(w, sid, draws);
    hide KeysAreFree, Unused, Undisturbed;
    assert draws[0] in draws;
  }

  /** Where a request is: the state it began in, and its variables now. Used in proofs only. */
  datatype Position = Position(start: World, s: Session) {
    function On(next: Session): Position {
      Position(start, next)
    }
  }

  /**
   The shared database and the requests in flight. The other fields decide what is not ours to decide:
   what the other requests do before each of our statements, which statements fail on the way, and the
   keys that are generated. They are arbitrary, so every interleaving and every failure is covered.
   */
  class Database {
    var world: World
    var schedule: seq<seq<Action>>
    var faults: seq<bool>
    var draws: seq<Keys>

    /** Request `sid` is at this point of its program, after a run from the state it began in. */
    ghost predicate Holds(sid: Sid, at: Position)
      reads this
    {
      sid in world.sessions && world.sessions[sid] == at.s && Leads(at.start, world)
    }

    /** Nothing interferes with request `sid`: nobody else is at work, no statement fails, keys are new. */
    ghost predicate Calm(sid: Sid)
      reads this
    {
      schedule == [] && (forall i :: 0 <= i < |faults| ==> !faults[i]) && Quiet(world, sid, draws)
    }

    /** The other requests move, then the statement of request `sid` may start, fail, or give up waiting. */
    method Await(sid: Sid, ghost at: Position) returns (r: Result<(), Error>)
      requires Holds(sid, at) && !at.s.stage.Done?
      modifies this
      ensures Holds(sid, at)
      ensures r.Ok? ==> !Blocked(world, sid)
      ensures r.Err? ==> r.error == Unavailable && CanStop(world, sid, Unavailable)
      ensures old(Calm(sid)) ==> r.Ok? && Calm(sid) && world == old(world)
    {
      hide Step, Enabled, Blocked, Quiet;
      LeadsToItself(world);
      if Calm(sid) {
        QuietIsUnblocked(world, sid, draws);
      }
      if schedule != [] {
        var moves := schedule[0];
        schedule := schedule[1..];
        var i := 0;
        while i < |moves|
          invariant Holds(sid, at)
        {
          if moves[i].sid != sid && Enabled(world, moves[i]) {
            OthersStay(world, moves[i], sid);
            LeadsOn(at.start, world, moves[i]);
            world := Step(world, moves[i]);
          }
          i := i + 1;
        }
      }
      var fault := faults != [] && faults[0];
      faults := if faults == [] then [] else faults[1..];
      r := if fault || Blocked(world, sid) then Err(Unavailable) else Ok(());
    }

    /** wallet_repository.go: the caller's wallet, read without a lock. */
    method FindByUserID(sid: Sid, user: UserId, ghost at: Position) returns (r: Result<Option<WalletId>, Error>)
      requires Holds(sid, at) && at.s.stage.Start?
      modifies this
      ensures Holds(sid, at)
      ensures r.Ok? ==> !Blocked(world, sid)
      ensures r.Ok? ==> r.value == if user in world.db.byOwner then Some(world.db.byOwner[user]) else None
      ensures r.Err? ==> CanStop(world, sid, r.error)
      ensures old(Calm(sid)) ==> r.Ok? && Calm(sid) && world == old(world)
    {
      var _ :- Await(sid, at);
      r := Ok(if user in world.db.byOwner then Some(world.db.byOwner[user]) else None);
    }

    method FindByID(sid: Sid, x: WalletId, ghost at: Position) returns (r: Result<Option<WalletId>, Error>)
      requires Holds(sid, at) && at.s.stage.FindTarget?
      modifies this
      ensures Holds(sid, at)
      ensures r.Ok? ==> !Blocked(world, sid)
      ensures r.Ok? ==> r.value == if x in world.db.wallets then Some(x) else None
      ensures r.Err? ==> CanStop(world, sid, r.error)
      ensures old(Calm(sid)) ==> r.Ok? && Calm(sid) && world == old(world)
    {
      var _ :- Await(sid, at);
      r := Ok(if x in world.db.wallets then Some(x) else None);
    }

    method FindByEmail(sid: Sid, email: Email, ghost at: Position) returns (r: Result<bool, Error>)
      requires Holds(sid, at) && at.s.stage.Start?
      modifies this
      ensures Holds(sid, at)
      ensures r.Ok? ==> !Blocked(world, sid)
      ensures r.Ok? ==> r.value == (email in world.db.byEmail)
      ensures r.Err? ==> CanStop(world, sid, r.error)
      ensures old(Calm(sid)) ==> r.Ok? && Calm(sid) && world == old(world)
    {
      var _ :- Await(sid, at);
      r := Ok(email in world.db.byEmail);
    }

    /** The request goes on with these local variables; it must be what the protocol does. */
    method Continue(sid: Sid, s': Session, ghost at: Position)
      requires Holds(sid, at) && Movable(at.s) && !Blocked(world, sid) && KeysAreFree(world, sid, NO_KEYS)
      requires Move(world.db, at.s, NO_KEYS) == Next(s')
      modifies this
      ensures Holds(sid, at.On(s'))
      ensures world.db == old(world.db)
      ensures old(Calm(sid)) ==> Calm(sid) && world.log == old(world.log)
    {
      hide Leads, Blocked, KeysAreFree, Move, Quiet;
      MoveNeedsNoMore(world.db, at.s, NO_KEYS);
      if Calm(sid) {
        QuietGoesOn(world, sid, draws, s', world.locks, draws);
      }
      MovesOn(at.start, world, sid, NO_KEYS, s');
      world := world.(sessions := world.sessions[sid := s']);
    }

    method Begin(sid: Sid, ghost at: Position) returns (r: Result<(), Error>)
      requires Holds(sid, at) && at.s.stage.Begin?
      modifies this
      ensures r.Ok? ==> Holds(sid, at.On(at.s.(stage := NextStage(at.s))))
      ensures r.Err? ==> Holds(sid, at) && CanStop(world, sid, r.error)
      ensures old(Calm(sid)) ==> r.Ok? && Calm(sid) && world.db == old(world.db) && world.log == old(world.log)
    {
      hide Quiet;
      var _ :- Await(sid, at);
      var next := world.sessions[sid].(stage := NextStage(world.sessions[sid]));
      MovesOn(at.start, world, sid, NO_KEYS, next);
      if Calm(sid) {
        QuietNext(world, sid, draws, next, world.locks);
      }
      world := world.(sessions := world.sessions[sid := next]);
      r := Ok(());
    }

    /** SELECT ... FOR UPDATE: waits until no other session holds the row, then reads it as committed. */
    method FindByIDForUpdate(sid: Sid, x: WalletId, ghost at: Position) returns (r: Result<Option<Wallet>, Error>)
      requires Holds(sid, at) && AtLock(at.s) && StageFits(at.s) && x == Wanted(at.s)
      modifies this
      ensures r.Ok? && r.value.Some? ==>
                Holds(sid, at.On(WithRow(at.s, x, r.value.value)))
      ensures r.Ok? && r.value.None? ==>
                Holds(sid, at) && x !in world.db.wallets && CanStop(world, sid, MissingRow(at.s))
      ensures r.Err? ==> Holds(sid, at) && CanStop(world, sid, r.error)
      ensures old(Calm(sid)) ==> r.Ok? && world.db == old(world.db) && world.log == old(world.log)
      ensures old(Calm(sid)) && r.Ok? && r.value.Some? ==> Calm(sid)
    {
      hide Quiet, Leads, Blocked, Wanted;
      var _ :- Await(sid, at);
      assert Enabled(world, Advance(sid, NO_KEYS));
      if x !in world.db.wallets {
        assert Step(world, Advance(sid, NO_KEYS)) == Over(world, sid, Failed(MissingRow(at.s)));
        return Ok(None);
      }
      var row := world.db.wallets[x];
      var t := world.sessions[sid];
      var next := t.(stage := NextStage(t), held := t.held[x := row]);
      LeadsOn(at.start, world, Advance(sid, NO_KEYS));
      if Calm(sid) {
        QuietNext(world, sid, draws, next, world.locks[x := sid]);
      }
      world := world.(locks := world.locks[x := sid], sessions := world.sessions[sid := next]);
      r := Ok(Some(row));
    }

    /** Draws a key; one that collides with another row is a failure of the statement. */
    method Draw(sid: Sid, ghost at: Position) returns (r: Result<Keys, Error>)
      requires Holds(sid, at) && !at.s.stage.Done?
      modifies this`draws
      ensures r.Ok? ==> KeysAreFree(world, sid, r.value)
      ensures r.Err? ==> CanStop(world, sid, r.error)
      ensures draws == if old(draws) == [] then [] else old(draws)[1..]
      ensures old(Calm(sid)) && StageFits(at.s) && Inserting(at.s) ==> r.Ok?
    {
      hide Quiet;
      if Calm(sid) && StageFits(at.s) && Inserting(at.s) {
        QuietDraw(world, sid, draws);
      }
      var keys := if draws == [] then NO_KEYS else draws[0];
      draws := if draws == [] then [] else draws[1..];
      r := if KeysAreFree(world, sid, keys) then Ok(keys) else Err(Unavailable);
    }

    /** transaction_repository.go: Create; the ID is the database's, not the one made by the service. */
    method CreateTransaction(sid: Sid, kind: Kind, amount: real, source: Option<WalletId>, target: WalletId,
                             ghost at: Position)
      returns (r: Result<TxnId, Error>)
      requires Holds(sid, at) && StageFits(at.s) && Inserts(at.s, kind, amount, source, target)
      modifies this
      ensures r.Ok? ==> AmountFits(amount)
      ensures r.Ok? ==>
                Holds(sid, at.On(WithTxn(at.s, Txn(r.value, kind, Pending, Round(amount), source, target))))
      ensures r.Err? ==> Holds(sid, at) && CanStop(world, sid, r.error)
      ensures old(Calm(sid)) ==> world.db == old(world.db) && world.log == old(world.log)
      ensures old(Calm(sid)) && r.Ok? ==> Calm(sid)
      ensures old(Calm(sid)) && r.Err? ==> r.error != Unavailable
    {
      hide Quiet, Leads, Blocked, KeysAreFree, AmountFits, Round;
      var _ :- Await(sid, at);
      ghost var calm, before := Calm(sid), draws;
      var keys :- Draw(sid, at);
      if !AmountFits(amount) {
        StopsHere(world, sid, keys, Rejected);
        return Err(Rejected);
      }
      var t := world.sessions[sid];
      var row := Txn(keys.id, kind, Pending, Round(amount), source, target);
      var next := t.(stage := NextStage(t), id := keys.id, delta := t.delta.(txns := t.delta.txns + [row]));
      MovesOn(at.start, world, sid, keys, next);
      if calm {
        QuietNext(world, sid, before, next, world.locks);
      }
      world := world.(sessions := world.sessions[sid := next]);
      r := Ok(keys.id);
    }

    method UpdateBalance(sid: Sid, x: WalletId, balance: real, ghost at: Position) returns (r: Result<(), Error>)
      requires Holds(sid, at) && StageFits(at.s) && Writes(at.s, x, balance)
      modifies this
      ensures r.Ok? ==> Holds(sid, at.On(WithBalance(at.s, x, balance)))
      ensures r.Err? ==> Holds(sid, at) && CanStop(world, sid, r.error)
      ensures old(Calm(sid)) ==> world.db == old(world.db) && world.log == old(world.log)
      ensures old(Calm(sid)) && r.Ok? ==> Calm(sid)
      ensures old(Calm(sid)) && r.Err? ==> r.error != Unavailable
    {
      hide Quiet, Leads, Blocked, BalanceFits, Round, Row;
      var _ :- Await(sid, at);
      if !BalanceFits(balance) {
        StopsHere(world, sid, NO_KEYS, Rejected);
        return Err(Rejected);
      }
      var t := world.sessions[sid];
      var next := t.(stage := NextStage(t),
                     delta := t.delta.(wallets := t.delta.wallets[x := Row(t, x).(balance := Round(balance))]));
      MovesOn(at.start, world, sid, NO_KEYS, next);
      if Calm(sid) {
        QuietNext(world, sid, draws, next, world.locks);
      }
      world := world.(sessions := world.sessions[sid := next]);
      r := Ok(());
    }

    method CreateLedgerEntry(sid: Sid, txn: TxnId, x: WalletId, side: Side, amount: real, ghost at: Position)
      returns (r: Result<(), Error>)
      requires Holds(sid, at) && StageFits(at.s) && Enters(at.s, txn, x, side, amount)
      modifies this
      ensures r.Ok? ==> Holds(sid, at.On(WithEntry(at.s, Entry(txn, x, side, Round(amount)))))
      ensures r.Err? ==> Holds(sid, at) && CanStop(world, sid, r.error)
      ensures old(Calm(sid)) ==> world.db == old(world.db) && world.log == old(world.log)
      ensures old(Calm(sid)) && r.Ok? ==> Calm(sid)
      ensures old(Calm(sid)) && r.Err? ==> r.error != Unavailable
    {
      hide Quiet, Leads, Blocked, AmountFits, Round;
      var _ :- Await(sid, at);
      if !AmountFits(amount) {
        StopsHere(world, sid, NO_KEYS, Rejected);
        return Err(Rejected);
      }
      var t := world.sessions[sid];
      var row := Entry(txn, x, side, Round(amount));
      var next := t.(stage := NextStage(t), delta := t.delta.(entries := t.delta.entries + [row]));
      MovesOn(at.start, world, sid, NO_KEYS, next);
      if Calm(sid) {
        QuietNext(world, sid, draws, next, world.locks);
      }
      world := world.(sessions := world.sessions[sid := next]);
      r := Ok(());
    }

    method UpdateStatus(sid: Sid, txn: TxnId, status: Status, ghost at: Position) returns (r: Result<(), Error>)
      requires Holds(sid, at) && StageFits(at.s) && at.s.stage.MarkCompleted? && txn == at.s.id && status == Completed
      modifies this
      ensures r.Ok? ==> Holds(sid, at.On(WithStatus(at.s, txn, status)))
      ensures r.Err? ==> Holds(sid, at) && CanStop(world, sid, r.error)
      ensures old(Calm(sid)) ==> world.db == old(world.db) && world.log == old(world.log)
      ensures old(Calm(sid)) && r.Ok? ==> Calm(sid)
      ensures old(Calm(sid)) && r.Err? ==> r.error != Unavailable
    {
      hide Quiet, Leads, Blocked, SetStatus;
      var _ :- Await(sid, at);
      var t := world.sessions[sid];
      var next := t.(stage := NextStage(t), delta := t.delta.(txns := SetStatus(t.delta.txns, txn, status)));
      MovesOn(at.start, world, sid, NO_KEYS, next);
      if Calm(sid) {
        QuietNext(world, sid, draws, next, world.locks);
      }
      world := world.(sessions := world.sessions[sid := next]);
      r := Ok(());
    }

    /** user_repository.go: Create; an address already committed violates its unique constraint. */
    method CreateUser(sid: Sid, email: Email, ghost at: Position) returns (r: Result<UserId, Error>)
      requires Holds(sid, at) && at.s.stage.InsertUser? && at.s.req == Request.Register(email)
      modifies this
      ensures r.Ok? ==> Holds(sid, at.On(WithUser(at.s, r.value, email)))
      ensures r.Err? ==> Holds(sid, at) && CanStop(world, sid, r.error)
      ensures old(Calm(sid)) ==> world.db == old(world.db) && world.log == old(world.log)
      ensures old(Calm(sid)) && r.Ok? ==> Calm(sid)
      ensures old(Calm(sid)) && r.Err? ==> r.error != Unavailable
    {
      hide Quiet, Leads, Blocked, KeysAreFree;
      var _ :- Await(sid, at);
      ghost var calm, before := Calm(sid), draws;
      var keys :- Draw(sid, at);
      if email in world.db.byEmail {
        StopsHere(world, sid, keys, DuplicateKey);
        return Err(DuplicateKey);
      }
      var t := world.sessions[sid];
      var next := t.(stage := NextStage(t), id := keys.id,
                     delta := t.delta.(users := t.delta.users[keys.id := email],
                                       byEmail := t.delta.byEmail[email := keys.id]));
      MovesOn(at.start, world, sid, keys, next);
      if calm {
        QuietNext(world, sid, before, next, world.locks);
      }
      world := world.(sessions := world.sessions[sid := next]);
      r := Ok(keys.id);
    }

    method CreateWallet(sid: Sid, user: UserId, balance: int, ghost at: Position) returns (r: Result<WalletId, Error>)
      requires Holds(sid, at) && at.s.stage.InsertWallet? && at.s.req.Register? && user == at.s.id && balance == 0
      modifies this
      ensures r.Ok? ==> Holds(sid, at.On(WithWallet(at.s, r.value, Wallet(user, balance))))
      ensures r.Err? ==> Holds(sid, at) && CanStop(world, sid, r.error)
      ensures old(Calm(sid)) ==> world.db == old(world.db) && world.log == old(world.log)
      ensures old(Calm(sid)) && r.Ok? ==> Calm(sid)
      ensures old(Calm(sid)) && r.Err? ==> r.error != Unavailable
    {
      hide Quiet, Leads, Blocked, KeysAreFree;
      var _ :- Await(sid, at);
      ghost var calm, before := Calm(sid), draws;
      var keys :- Draw(sid, at);
      var x := keys.wallet;
      var t := world.sessions[sid];
      var next := t.(stage := NextStage(t), target := x,
                     delta := t.delta.(wallets := t.delta.wallets[x := Wallet(user, balance)],
                                       byOwner := t.delta.byOwner[user := x]));
      MovesOn(at.start, world, sid, keys, next);
      if calm {
        QuietNext(world, sid, before, next, world.locks);
      }
      world := world.(sessions := world.sessions[sid := next]);
      r := Ok(x);
    }

    /** COMMIT: the private writes become rows, the locks go, and the receipt is history. */
    method Commit(sid: Sid, receipt: Receipt, ghost at: Position) returns (r: Result<(), Error>)
      requires Holds(sid, at) && at.s.stage.Commit? && receipt == ReceiptOf(at.s)
      modifies this
      ensures r.Ok? ==>
                sid in world.sessions && world.sessions[sid].outcome == Committed(receipt) && Leads(at.start, world)
      ensures r.Err? ==> Holds(sid, at) && CanStop(world, sid, r.error)
      ensures old(Calm(sid)) ==> r.Ok?
      ensures r.Ok? && old(Calm(sid)) ==> world.log == old(world.log) + [Ticket(sid, OrderOf(at.s), receipt)]
    {
      hide Quiet, Leads, Blocked, ReceiptOf, Flush, OrderOf;
      var _ :- Await(sid, at);
      LeadsOn(at.start, world, Advance(sid, NO_KEYS));
      var t := world.sessions[sid];
      var over := t.(stage := Done, held := map[], delta := EMPTY, outcome := Committed(receipt));
      world := World(Flush(world.db, t.delta), world.locks - t.held.Keys, world.sessions[sid := over],
                     world.log + [Ticket(sid, OrderOf(t), receipt)]);
      r := Ok(());
    }

    /** The deferred ROLLBACK: the private writes and the locks go, the tables stay. */
    method Rollback(sid: Sid, error: Error, ghost start: World)
      requires Leads(start, world) && CanStop(world, sid, error)
      modifies this
      ensures Leads(start, world)
      ensures world.db == old(world.db) && world.log == old(world.log)
      ensures sid in world.sessions && world.sessions[sid].outcome == Failed(error)
      ensures forall x :: x in world.locks ==> x in old(world.locks) && world.locks[x] == old(world.locks[x])
    {
      hide Leads, CanStop;
      StopLeads(world, sid, error);
      LeadsFurther(start, world, Over(world, sid, Failed(error)));
      var t := world.sessions[sid];
      var over := t.(stage := Done, held := map[], delta := EMPTY, outcome := Failed(error));
      world := world.(locks := world.locks - t.held.Keys, sessions := world.sessions[sid := over]);
    }
  }

  lemma StopLeads(w: World, sid: Sid, error: Error)
    requires CanStop(w, sid, error)
    ensures sid in w.sessions && Leads(w, Over(w, sid, Failed(error)))
  {
    hide Leads, Over;
    LeadsToItself(w);
    if error == Unavailable {
      LeadsOn(w, w, Fail(sid));
    } else {
      var keys :| Enabled(w, Advance(sid, keys)) && Step(w, Advance(sid, keys)) == Over(w, sid, Failed(error));
      LeadsOn(w, w, Advance(sid, keys));
    }
  }

  /* ---- transaction_service.go and auth_service.go ---- */

  /** How a request ends: a receipt for a committed session, or an error for one that left nothing. */
  ghost predicate Ended(w: World, sid: Sid, r: Result<Receipt, Error>) {
    && sid in w.sessions
    && w.sessions[sid].outcome == (match r case Ok(receipt) => Committed(receipt) case Err(error) => Failed(error))
  }

  /** What a request that nothing interferes with comes to: one more record, or an error of its own. */
  ghost predicate Decided(start: World, w: World, sid: Sid, r: Result<Receipt, Error>) {
    match r
    case Ok(receipt) => exists order :: w.log == start.log + [Ticket(sid, order, receipt)]
    case Err(error) => error != Unavailable && w.db == start.db
  }

  /** The answer and the tables of the request run alone, with some keys; a lost race is a conflict. */
  ghost predicate ServedAlone(db: Db, req: Request, r: Result<Receipt, Error>, after: Db) {
    match r
    case Ok(receipt) => exists order: Order :: order.req == req && Apply(db, order) == Accepted(after, receipt)
    case Err(error) =>
      && after == db
      && forall order: Order :: order.req == req ==>
           Apply(db, order) == Refused(if error == DuplicateKey then EmailConflict else error)
  }

  lemma AcceptedAlone(start: World, w: World, sid: Sid, receipt: Receipt)
    requires Inv(start) && Leads(start, w) && sid in start.sessions && Decided(start, w, sid, Ok(receipt))
    ensures ServedAlone(start.db, start.sessions[sid].req, Ok(receipt), w.db)
  {
    hide Inv, Leads, Apply, Replay, Recorded;
    LeadsKeepsInv(start, w);
    LeadsKeepsRequests(start, w);
    var order :| w.log == start.log + [Ticket(sid, order, receipt)];
    assert w.log[|start.log|] == Ticket(sid, order, receipt);
    TicketIsRecorded(w, |start.log|);
    HistoryIsTables(start);
    HistoryIsTables(w);
    ReplayOneMore(start.log, Ticket(sid, order, receipt));
  }

  lemma TicketIsRecorded(w: World, i: nat)
    requires Inv(w) && i < |w.log|
    ensures w.log[i].sid in w.sessions && w.log[i].order.req == w.sessions[w.log[i].sid].req
  {
    hide SessionOk, LocksOk, ClaimsOk, Replay;
    assert Recorded(w, w.log[i]);
  }

  lemma ReplayOneMore(log: seq<Ticket>, t: Ticket)
    requires Replay(log).Some? && Replay(log + [t]).Some?
    ensures Apply(Replay(log).value, t.order) == Accepted(Replay(log + [t]).value, t.receipt)
  {
    hide Apply;
    assert (log + [t])[..|log|] == log;
  }

  lemma RefusedAlone(start: World, w: World, sid: Sid, error: Error)
    requires Inv(start) && Leads(start, w) && sid in start.sessions && Decided(start, w, sid, Err(error))
    requires CanStop(w, sid, error)
    ensures ServedAlone(start.db, start.sessions[sid].req, Err(error), start.db)
  {
    hide Inv, Leads, Apply, Over, Enabled, Step, CanStop;
    RefusedThen(start, w, sid, error);
  }

  /** A request that stops with an error of its own would get it alone, too, in the tables of that moment. */
  lemma RefusedThen(start: World, w: World, sid: Sid, error: Error)
    requires Inv(start) && Leads(start, w) && sid in start.sessions && CanStop(w, sid, error) && error != Unavailable
    ensures forall order: Order :: order.req == start.sessions[sid].req ==>
              Apply(w.db, order) == Refused(if error == DuplicateKey then EmailConflict else error)
  {
    hide Inv, Leads, Apply, Over, Enabled, Step;
    LeadsKeepsInv(start, w);
    LeadsKeepsRequests(start, w);
    var keys :| Enabled(w, Advance(sid, keys)) && Step(w, Advance(sid, keys)) == Over(w, sid, Failed(error));
    forall order: Order | order.req == start.sessions[sid].req
      ensures Apply(w.db, order) == Refused(if error == DuplicateKey then EmailConflict else error)
    {
      OverFails(w, sid, error);
      RefusalsAreSerial(w, Advance(sid, keys), order);
    }
  }

  lemma OverFails(w: World, sid: Sid, error: Error)
    requires sid in w.sessions
    ensures sid in Over(w, sid, Failed(error)).sessions
    ensures Over(w, sid, Failed(error)).sessions[sid].outcome == Failed(error)
  {
  }

  lemma LeadsKeepsRequests(w: World, w': World)
    requires Leads(w, w')
    ensures w'.sessions.Keys == w.sessions.Keys
    ensures forall sid :: sid in w.sessions ==> w'.sessions[sid].req == w.sessions[sid].req
  {
    var run :| IsRun(w, run) && After(w, run) == w';
    RunKeepsRequests(w, run);
  }

  /** The statements of TopUp up to its first error. */
  method TopUpStatements(pg: Database, sid: Sid, user: UserId, amount: real, ghost start: World)
    returns (r: Result<Receipt, Error>)
    requires start == pg.world && sid in start.sessions && start.sessions[sid] == Fresh(Request.TopUp(user, amount))
    modifies pg
    ensures Leads(start, pg.world)
    ensures r.Ok? ==> Ended(pg.world, sid, r)
    ensures r.Err? ==> CanStop(pg.world, sid, r.error)
    ensures old(pg.Calm(sid)) ==> Decided(start, pg.world, sid, r)
  {
    LeadsToItself(start);
    var s := Fresh(Request.TopUp(user, amount));
    ghost var at := Position(start, s);
    hide Quiet, Leads, Blocked, CanStop, AmountFits, BalanceFits, Round, SetStatus, ClaimedElsewhere, WaitsFor;

    var found :- pg.FindByUserID(sid, user, at);
    if found.None? {
      StopsHere(pg.world, sid, NO_KEYS, WalletNotFound);
      return Err(WalletNotFound);
    }
    var wallet := found.value;
    s := s.(stage := Stage.Begin, target := wallet);
    pg.Continue(sid, s, at);
    at := at.On(s);

    var _ :- pg.Begin(sid, at);
    at := at.On(at.s.(stage := LockFirst));

    var locked :- pg.FindByIDForUpdate(sid, wallet, at);
    if locked.None? {
      return Err(WalletNotFound);
    }
    at := at.On(pg.world.sessions[sid]);
    r := TopUpWrites(pg, sid, wallet, locked.value, amount, at);
  }

  /** The writing half of TopUp, on the locked row. */
  method TopUpWrites(pg: Database, sid: Sid, wallet: WalletId, lockedWallet: Wallet, amount: real, ghost at0: Position)
    returns (r: Result<Receipt, Error>)
    requires pg.Holds(sid, at0) && at0.s.stage.InsertTxn? && at0.s.req.TopUp? && at0.s.req.amount == amount
    requires at0.s.target == wallet && Row(at0.s, wallet) == lockedWallet
    modifies pg
    ensures Leads(at0.start, pg.world)
    ensures r.Ok? ==> Ended(pg.world, sid, r)
    ensures r.Err? ==> CanStop(pg.world, sid, r.error)
    ensures old(pg.Calm(sid)) ==> Decided(old(pg.world), pg.world, sid, r)
  {
    ghost var at := at0;
    hide Quiet, Leads, Blocked, CanStop, AmountFits, BalanceFits, Round, SetStatus, Row;

    var txn :- pg.CreateTransaction(sid, TopUpKind, amount, None, wallet, at);
    at := at.On(pg.world.sessions[sid]);
    RowsStay(at0.s, at.s);

    var newBalance := lockedWallet.balance as real + amount;
    var _ :- pg.UpdateBalance(sid, wallet, newBalance, at);
    at := at.On(pg.world.sessions[sid]);

    var _ :- pg.CreateLedgerEntry(sid, txn, wallet, Credit, amount, at);
    at := at.On(pg.world.sessions[sid]);

    var _ :- pg.UpdateStatus(sid, txn, Completed, at);
    at := at.On(pg.world.sessions[sid]);
    RowsStay(at0.s, at.s);

    var receipt := Paid(txn, TopUpKind, amount, None, wallet, newBalance);
    var _ :- pg.Commit(sid, receipt, at);
    return Ok(receipt);
  }

  /** The statements of Transfer up to its first error. */
  method TransferStatements(pg: Database, sid: Sid, user: UserId, to: WalletId, amount: real, ghost start: World)
    returns (r: Result<Receipt, Error>)
    requires start == pg.world && sid in start.sessions
    requires start.sessions[sid] == Fresh(Request.Transfer(user, to, amount))
    modifies pg
    ensures Leads(start, pg.world)
    ensures r.Ok? ==> Ended(pg.world, sid, r)
    ensures r.Err? ==> CanStop(pg.world, sid, r.error)
    ensures old(pg.Calm(sid)) ==> Decided(start, pg.world, sid, r)
  {
    LeadsToItself(start);
    var s := Fresh(Request.Transfer(user, to, amount));
    ghost var at := Position(start, s);
    hide Quiet, Leads, Blocked, CanStop, AmountFits, BalanceFits, Round, SetStatus, ClaimedElsewhere, WaitsFor, Less;

    var found :- pg.FindByUserID(sid, user, at);
    if found.None? {
      StopsHere(pg.world, sid, NO_KEYS, WalletNotFound);
      return Err(WalletNotFound);
    }
    var source := found.value;
    if source == to {
      StopsHere(pg.world, sid, NO_KEYS, SelfTransfer);
      return Err(SelfTransfer);
    }
    s := s.(stage := FindTarget, source := source);
    pg.Continue(sid, s, at);
    at := at.On(s);

    var target :- pg.FindByID(sid, to, at);
    if target.None? {
      StopsHere(pg.world, sid, NO_KEYS, TargetWalletNotFound);
      return Err(TargetWalletNotFound);
    }
    s := s.(stage := Stage.Begin, target := target.value);
    pg.Continue(sid, s, at);
    at := at.On(s);

    var _ :- pg.Begin(sid, at);
    at := at.On(pg.world.sessions[sid]);

    var locked :- LockInOrder(pg, sid, source, to, at);
    var (lockedSource, lockedTarget) := locked;
    at := at.On(pg.world.sessions[sid]);
    s := pg.world.sessions[sid];

    OnlyLocksBlock(pg.world, sid);
    if lockedSource.balance as real < amount {
      StopsHere(pg.world, sid, NO_KEYS, InsufficientBalance);
      return Err(InsufficientBalance);
    }
    s := s.(stage := InsertTxn);
    pg.Continue(sid, s, at);
    at := at.On(s);

    r := TransferWrites(pg, sid, source, lockedSource, to, lockedTarget, amount, at);
  }

  /** Both rows, the lesser wallet ID first, whichever way the money goes. */
  method LockInOrder(pg: Database, sid: Sid, source: WalletId, target: WalletId, ghost at0: Position)
    returns (r: Result<(Wallet, Wallet), Error>)
    requires pg.Holds(sid, at0) && at0.s.stage.LockFirst? && at0.s.req.Transfer?
    requires at0.s.source == source && at0.s.target == target && source != target
    modifies pg
    ensures r.Ok? ==>
              var held := at0.s.held[source := r.value.0][target := r.value.1];
              pg.Holds(sid, at0.On(at0.s.(stage := CheckFunds, held := held)))
    ensures r.Err? ==> Leads(at0.start, pg.world) && CanStop(pg.world, sid, r.error)
    ensures old(pg.Calm(sid)) ==> pg.world.db == old(pg.world.db) && pg.world.log == old(pg.world.log)
    ensures old(pg.Calm(sid)) && r.Ok? ==> pg.Calm(sid)
    ensures old(pg.Calm(sid)) && r.Err? ==> r.error != Unavailable
  {
    ghost var at := at0;
    hide Quiet, Leads, CanStop, Less;
    var w1, w2: Option<Wallet>;
    if Less(source, target) {
      w1 :- pg.FindByIDForUpdate(sid, source, at);
      if w1.None? {
        return Err(NilWallet);
      }
      at := at.On(pg.world.sessions[sid]);
      w2 :- pg.FindByIDForUpdate(sid, target, at);
      if w2.None? {
        return Err(NilWallet);
      }
    } else {
      w2 :- pg.FindByIDForUpdate(sid, target, at);
      if w2.None? {
        return Err(NilWallet);
      }
      at := at.On(pg.world.sessions[sid]);
      w1 :- pg.FindByIDForUpdate(sid, source, at);
      if w1.None? {
        return Err(NilWallet);
      }
    }
    assert at0.s.held[source := w1.value][target := w2.value] == at0.s.held[target := w2.value][source := w1.value];
    return Ok((w1.value, w2.value));
  }

  /** The writing half of Transfer, on the two locked rows. */
  method TransferWrites(pg: Database, sid: Sid, source: WalletId, lockedSource: Wallet, target: WalletId,
                        lockedTarget: Wallet, amount: real, ghost at0: Position)
    returns (r: Result<Receipt, Error>)
    requires pg.Holds(sid, at0) && at0.s.stage.InsertTxn? && at0.s.req.Transfer? && at0.s.req.amount == amount
    requires at0.s.source == source && at0.s.target == target
    requires Row(at0.s, source) == lockedSource && Row(at0.s, target) == lockedTarget
    modifies pg
    ensures Leads(at0.start, pg.world)
    ensures r.Ok? ==> Ended(pg.world, sid, r)
    ensures r.Err? ==> CanStop(pg.world, sid, r.error)
    ensures old(pg.Calm(sid)) ==> Decided(old(pg.world), pg.world, sid, r)
  {
    ghost var at := at0;
    hide Quiet, Leads, Blocked, CanStop, AmountFits, BalanceFits, Round, SetStatus, Row;

    var txn :- pg.CreateTransaction(sid, TransferKind, amount, Some(source), target, at);
    at := at.On(pg.world.sessions[sid]);
    RowsStay(at0.s, at.s);

    var sourceNewBalance := lockedSource.balance as real - amount;
    var _ :- pg.UpdateBalance(sid, source, sourceNewBalance, at);
    at := at.On(pg.world.sessions[sid]);
    RowsStay(at0.s, at.s);

    var targetNewBalance := lockedTarget.balance as real + amount;
    var _ :- pg.UpdateBalance(sid, target, targetNewBalance, at);
    at := at.On(pg.world.sessions[sid]);
    RowsStay(at0.s, at.s);

    r := TransferEntries(pg, sid, txn, source, target, amount, sourceNewBalance, at);
  }

  /** Both ledger entries, the status and the commit of Transfer. */
  method TransferEntries(pg: Database, sid: Sid, txn: TxnId, source: WalletId, target: WalletId, amount: real,
                         sourceNewBalance: real, ghost at0: Position)
    returns (r: Result<Receipt, Error>)
    requires pg.Holds(sid, at0) && at0.s.stage.EnterDebit? && at0.s.req.Transfer? && at0.s.req.amount == amount
    requires at0.s.source == source && at0.s.target == target && at0.s.id == txn
    requires sourceNewBalance == Row(at0.s, source).balance as real - amount
    modifies pg
    ensures Leads(at0.start, pg.world)
    ensures r.Ok? ==> Ended(pg.world, sid, r)
    ensures r.Err? ==> CanStop(pg.world, sid, r.error)
    ensures old(pg.Calm(sid)) ==> Decided(old(pg.world), pg.world, sid, r)
  {
    ghost var at := at0;
    hide Quiet, Leads, Blocked, CanStop, AmountFits, BalanceFits, Round, SetStatus, Row;

    var _ :- pg.CreateLedgerEntry(sid, txn, source, Debit, amount, at);
    at := at.On(pg.world.sessions[sid]);

    var _ :- pg.CreateLedgerEntry(sid, txn, target, Credit, amount, at);
    at := at.On(pg.world.sessions[sid]);

    var _ :- pg.UpdateStatus(sid, txn, Completed, at);
    at := at.On(pg.world.sessions[sid]);
    RowsStay(at0.s, at.s);

    var receipt := Paid(txn, TransferKind, amount, Some(source), target, sourceNewBalance);
    var _ :- pg.Commit(sid, receipt, at);
    return Ok(receipt);
  }

  lemma RowsStay(s: Session, s': Session)
    requires s'.held == s.held
    ensures forall x :: Row(s', x) == Row(s, x)
  {
  }

  /** The statements of Register up to its first error. */
  method RegisterStatements(pg: Database, sid: Sid, email: Email, ghost start: World)
    returns (r: Result<Receipt, Error>)
    requires start == pg.world && sid in start.sessions && start.sessions[sid] == Fresh(Request.Register(email))
    modifies pg
    ensures Leads(start, pg.world)
    ensures r.Ok? ==> Ended(pg.world, sid, r)
    ensures r.Err? ==> CanStop(pg.world, sid, r.error)
    ensures old(pg.Calm(sid)) ==> Decided(start, pg.world, sid, r)
  {
    LeadsToItself(start);
    var s := Fresh(Request.Register(email));
    ghost var at := Position(start, s);
    hide Quiet, Leads, Blocked, CanStop, AmountFits, BalanceFits, Round, SetStatus, ClaimedElsewhere, WaitsFor;

    var known :- pg.FindByEmail(sid, email, at);
    if known {
      StopsHere(pg.world, sid, NO_KEYS, EmailConflict);
      return Err(EmailConflict);
    }
    s := s.(stage := Stage.Begin);
    pg.Continue(sid, s, at);
    at := at.On(s);

    var _ :- pg.Begin(sid, at);
    at := at.On(pg.world.sessions[sid]);

    r := RegisterWrites(pg, sid, email, at);
  }

  /** Both inserts of Register and the commit. */
  method RegisterWrites(pg: Database, sid: Sid, email: Email, ghost at0: Position) returns (r: Result<Receipt, Error>)
    requires pg.Holds(sid, at0) && at0.s.stage.InsertUser? && at0.s.req == Request.Register(email)
    modifies pg
    ensures Leads(at0.start, pg.world)
    ensures r.Ok? ==> Ended(pg.world, sid, r)
    ensures r.Err? ==> CanStop(pg.world, sid, r.error)
    ensures old(pg.Calm(sid)) ==> Decided(old(pg.world), pg.world, sid, r)
  {
    ghost var at := at0;
    hide Quiet, Leads, Blocked, CanStop, AmountFits, BalanceFits, Round, SetStatus, ClaimedElsewhere, WaitsFor;

    var user :- pg.CreateUser(sid, email, at);
    at := at.On(pg.world.sessions[sid]);

    var wallet :- pg.CreateWallet(sid, user, 0, at);
    at := at.On(pg.world.sessions[sid]);

    var receipt := Registered(user, email, wallet);
    var _ :- pg.Commit(sid, receipt, at);
    return Ok(receipt);
  }

  /* ---- The whole methods: every error is followed by the deferred rollback ---- */

  /**
   TopUp: one session of the protocol, under any interference. A receipt means that the history records
   this request with this receipt; an error means that it left no trace in the tables or the locks.
   */
  method TopUp(pg: Database, sid: Sid, user: UserId, amount: real) returns (r: Result<Receipt, Error>)
    requires Inv(pg.world) && sid in pg.world.sessions && pg.world.sessions[sid] == Fresh(Request.TopUp(user, amount))
    modifies pg
    ensures Leads(old(pg.world), pg.world) && Ended(pg.world, sid, r)
    ensures Settled(pg.world, sid, r) && Explained(pg.world.db, Request.TopUp(user, amount), r)
    ensures old(pg.Calm(sid)) ==> ServedAlone(old(pg.world.db), Request.TopUp(user, amount), r, pg.world.db)
  {
    ghost var start := pg.world;
    ghost var calm := pg.Calm(sid);
    hide Inv, Leads, Quiet, CanStop, Decided, ServedAlone, Settled, Explained;
    r := TopUpStatements(pg, sid, user, amount, start);
    if r.Err? {
      if calm {
        RefusedAlone(start, pg.world, sid, r.error);
      }
      RefusalIsExplained(start, pg.world, sid, r.error);
      pg.Rollback(sid, r.error, start);
    } else {
      if calm {
        AcceptedAlone(start, pg.world, sid, r.value);
      }
      ReceiptIsExplained(start, pg.world, sid, r.value);
    }
    SettledAtEnd(start, pg.world, sid, r);
  }

  method Transfer(pg: Database, sid: Sid, user: UserId, to: WalletId, amount: real) returns (r: Result<Receipt, Error>)
    requires Inv(pg.world) && sid in pg.world.sessions
    requires pg.world.sessions[sid] == Fresh(Request.Transfer(user, to, amount))
    modifies pg
    ensures Leads(old(pg.world), pg.world) && Ended(pg.world, sid, r)
    ensures Settled(pg.world, sid, r) && Explained(pg.world.db, Request.Transfer(user, to, amount), r)
    ensures old(pg.Calm(sid)) ==> ServedAlone(old(pg.world.db), Request.Transfer(user, to, amount), r, pg.world.db)
  {
    ghost var start := pg.world;
    ghost var calm := pg.Calm(sid);
    hide Inv, Leads, Quiet, CanStop, Decided, ServedAlone, Settled, Explained;
    r := TransferStatements(pg, sid, user, to, amount, start);
    if r.Err? {
      if calm {
        RefusedAlone(start, pg.world, sid, r.error);
      }
      RefusalIsExplained(start, pg.world, sid, r.error);
      pg.Rollback(sid, r.error, start);
    } else {
      if calm {
        AcceptedAlone(start, pg.world, sid, r.value);
      }
      ReceiptIsExplained(start, pg.world, sid, r.value);
    }
    SettledAtEnd(start, pg.world, sid, r);
  }

  method Register(pg: Database, sid: Sid, email: Email) returns (r: Result<Receipt, Error>)
    requires Inv(pg.world) && sid in pg.world.sessions && pg.world.sessions[sid] == Fresh(Request.Register(email))
    modifies pg
    ensures Leads(old(pg.world), pg.world) && Ended(pg.world, sid, r)
    ensures Settled(pg.world, sid, r) && Explained(pg.world.db, Request.Register(email), r)
    ensures old(pg.Calm(sid)) ==> ServedAlone(old(pg.world.db), Request.Register(email), r, pg.world.db)
  {
    ghost var start := pg.world;
    ghost var calm := pg.Calm(sid);
    hide Inv, Leads, Quiet, CanStop, Decided, ServedAlone, Settled, Explained;
    r := RegisterStatements(pg, sid, email, start);
    if r.Err? {
      if calm {
        RefusedAlone(start, pg.world, sid, r.error);
      }
      RefusalIsExplained(start, pg.world, sid, r.error);
      pg.Rollback(sid, r.error, start);
    } else {
      if calm {
        AcceptedAlone(start, pg.world, sid, r.value);
      }
      ReceiptIsExplained(start, pg.world, sid, r.value);
    }
    SettledAtEnd(start, pg.world, sid, r);
  }

  /**
   The answer is right by the tables: an error other than a failure on the way has its reason in them, and a
   receipt is true of them. A duplicate key is the conflict of a lost race for an e-mail address.
   */
  ghost predicate Explained(db: Db, req: Request, r: Result<Receipt, Error>) {
    match r
    case Ok(receipt) => ReceiptFor(db, receipt, req) && Booked(db, receipt)
    case Err(error) => error == Unavailable || Fails(db, req, if error == DuplicateKey then EmailConflict else error)
  }

  lemma RefusalIsExplained(start: World, w: World, sid: Sid, error: Error)
    requires Inv(start) && Leads(start, w) && sid in start.sessions && CanStop(w, sid, error)
    ensures Explained(w.db, start.sessions[sid].req, Err(error))
  {
    hide Inv, Leads, Apply, CanStop, Fails, Consistent;
    if error != Unavailable {
      RefusedThen(start, w, sid, error);
      LeadsKeepsInv(start, w);
      HistoryIsTables(w);
      AnswerIff(w.db, Order(start.sessions[sid].req, 0, ""));
    }
  }

  lemma ReceiptIsExplained(start: World, w: World, sid: Sid, receipt: Receipt)
    requires Inv(start) && Leads(start, w) && sid in start.sessions && Ended(w, sid, Ok(receipt))
    ensures Explained(w.db, start.sessions[sid].req, Ok(receipt))
  {
    hide Inv, Leads, ReceiptFor, Booked;
    LeadsKeepsInv(start, w);
    LeadsKeepsRequests(start, w);
    EndedIsRecorded(w, sid, Ok(receipt));
    var t :| t in w.log && t.sid == sid && t.receipt == receipt;
    var i :| 0 <= i < |w.log| && w.log[i] == t;
    TicketIsRecorded(w, i);
    ReceiptsStayTrue(w, t);
  }

  /** The history has the receipt, or nothing of the session; its rows are unlocked; no row was ever missing. */
  ghost predicate Settled(w: World, sid: Sid, r: Result<Receipt, Error>) {
    && (r.Ok? ==> exists t :: t in w.log && t.sid == sid && t.receipt == r.value)
    && (r.Err? ==> r.error != NilWallet && forall t :: t in w.log ==> t.sid != sid)
    && (forall x :: x in w.locks ==> w.locks[x] != sid)
  }

  lemma SettledAtEnd(start: World, w: World, sid: Sid, r: Result<Receipt, Error>)
    requires Inv(start) && Leads(start, w) && Ended(w, sid, r)
    ensures Settled(w, sid, r)
  {
    LeadsKeepsInv(start, w);
    assert SessionOk(w.db, w.sessions[sid]);
    EndedHoldsNothing(w.db, w.sessions[sid]);
    hide Inv, Leads, Replay, SessionOk, ClaimsOk, Recorded;
    EndedIsRecorded(w, sid, r);
    forall x | x in w.locks ensures w.locks[x] != sid {
      LockHolder(w, x);
    }
  }

  lemma LockHolder(w: World, x: WalletId)
    requires Inv(w) && x in w.locks
    ensures w.locks[x] in w.sessions && x in w.sessions[w.locks[x]].held
  {
    hide SessionOk, Replay, ClaimsOk, LogOk;
  }

  lemma EndedHoldsNothing(db: Db, s: Session)
    requires SessionOk(db, s) && !s.outcome.Running?
    ensures s.held == map[] && s.outcome != Failed(NilWallet)
  {
    hide DeltaOf, ClaimsFree, ReadsHold, ChecksPassed;
  }

  lemma EndedIsRecorded(w: World, sid: Sid, r: Result<Receipt, Error>)
    requires Inv(w) && Ended(w, sid, r)
    ensures r.Ok? ==> exists t :: t in w.log && t.sid == sid && t.receipt == r.value
    ensures r.Err? ==> forall t :: t in w.log ==> t.sid != sid
  {
    hide SessionOk, Replay, ClaimsOk, LocksOk;
    forall t | t in w.log ensures Recorded(w, t) {
    }
  }
}
