/** What every run of the protocol guarantees, for any requests, any interleaving and any failures. */
module Guarantees {
  import opened Wrappers
  import opened Money
  import opened Tables
  import opened Serial
  import opened Sessions
  import opened Serializability

  lemma ReachableHoldsInv(w: World)
    requires Reachable(w)
    ensures Inv(w)
  {
    var start, run :| Initial(start) && IsRun(start, run) && After(start, run) == w;
    InitialHoldsInv(start);
    RunKeepsInv(start, run);
  }

  /**
   Serializability: the committed tables are those of the committed requests run one at a time in commit
   order, with the same receipts; the history names each committed session once and no other session.
   */
  lemma ReachableIsSerial(w: World)
    requires Reachable(w)
    ensures Replay(w.log) == Some(w.db)
    ensures forall t :: t in w.log ==> t.sid in w.sessions && t.order == OrderOf(w.sessions[t.sid])
                                       && w.sessions[t.sid].outcome == Committed(t.receipt)
    ensures forall i, j :: 0 <= i < j < |w.log| ==> w.log[i].sid != w.log[j].sid
    ensures forall sid :: sid in w.sessions && w.sessions[sid].outcome.Committed? ==>
              exists t :: t in w.log && t.sid == sid
  {
    hide SessionOk, Replay, LocksOk, ClaimsOk, Reachable;
    ReachableHoldsInv(w);
    forall t | t in w.log ensures Recorded(w, t) {
    }
  }

  lemma HistoryIsTables(w: World)
    requires Inv(w)
    ensures Replay(w.log) == Some(w.db) && Consistent(w.db)
  {
    hide SessionOk, LocksOk, ClaimsOk, LogOk, Replay, Consistent;
    ReplayIsConsistent(w.log);
  }

  /** Requests keep their sessions: a run changes only how far each one is. */
  lemma {:induction false} RunKeepsRequests(w: World, run: seq<Action>)
    requires IsRun(w, run)
    ensures After(w, run).sessions.Keys == w.sessions.Keys
    ensures forall sid :: sid in w.sessions ==> After(w, run).sessions[sid].req == w.sessions[sid].req
    decreases |run|
  {
    if run != [] {
      StepKeepsRequests(w, run[0]);
      hide Step, Enabled;
      RunKeepsRequests(Step(w, run[0]), run[1..]);
    }
  }

  lemma StepKeepsRequests(w: World, a: Action)
    requires Enabled(w, a)
    ensures Step(w, a).sessions.Keys == w.sessions.Keys
    ensures forall sid :: sid in w.sessions ==> Step(w, a).sessions[sid].req == w.sessions[sid].req
  {
    hide Blocked, KeysAreFree, Move, Flush, ReceiptOf, OrderOf, Wanted;
    if a.Advance? && Move(w.db, w.sessions[a.sid], a.keys).Next? {
      MoveKeepsRequest(w.db, w.sessions[a.sid], a.keys);
    }
  }

  lemma MoveKeepsRequest(db: Db, s: Session, keys: Keys)
    requires Move(db, s, keys).Next?
    ensures Move(db, s, keys).session.req == s.req
  {
    hide AmountFits, BalanceFits, Round, SetStatus, Row;
  }

  lemma OthersStay(w: World, a: Action, sid: Sid)
    requires Enabled(w, a) && sid in w.sessions && sid != a.sid
    ensures sid in Step(w, a).sessions && Step(w, a).sessions[sid] == w.sessions[sid]
  {
    hide Blocked, KeysAreFree, AmountFits, BalanceFits, Round, SetStatus, Row, Move, Flush, ReceiptOf;
  }

  lemma StepGrowsLog(w: World, a: Action)
    requires Enabled(w, a)
    ensures w.log <= Step(w, a).log
    ensures |Step(w, a).log| <= |w.log| + 1
    ensures |Step(w, a).log| > |w.log| ==> Step(w, a).log[|w.log|].sid == a.sid
  {
    hide Blocked, KeysAreFree, Move, Flush, ReceiptOf;
  }

  lemma {:induction false} RunGrowsLog(w: World, run: seq<Action>)
    requires IsRun(w, run)
    ensures w.log <= After(w, run).log
    decreases |run|
  {
    if run != [] {
      StepGrowsLog(w, run[0]);
      RunGrowsLog(Step(w, run[0]), run[1..]);
    }
  }

  /**
   The serial order respects real time: a request that had committed before another one did anything
   stands before it in the history.
   */
  lemma SerialOrderIsRealTime(w: World, run: seq<Action>)
    requires Inv(w) && IsRun(w, run)
    ensures var log := After(w, run).log;
            forall i, j | 0 <= i < |log| && 0 <= j < |log| ::
              HasCommitted(w, log[i].sid) && StillRuns(w, log[j].sid) ==> i < j
  {
    hide SessionOk, Replay, LocksOk, ClaimsOk, Step, Enabled;
    RunGrowsLog(w, run);
    RunKeepsInv(w, run);
    var log := After(w, run).log;
    forall i, j | 0 <= i < |log| && 0 <= j < |log| && HasCommitted(w, log[i].sid) && StillRuns(w, log[j].sid)
      ensures i < j
    {
      var t :| t in w.log && t.sid == log[i].sid;
      var k :| 0 <= k < |w.log| && w.log[k] == t;
      assert log[k] == w.log[k];
    }
  }

  predicate HasCommitted(w: World, sid: Sid) {
    sid in w.sessions && w.sessions[sid].outcome.Committed?
  }

  predicate StillRuns(w: World, sid: Sid) {
    sid in w.sessions && w.sessions[sid].outcome.Running?
  }

  /** Only a commit changes the tables; every other step, a failure at any stage included, leaves them. */
  lemma OnlyCommitsWrite(w: World, a: Action)
    requires Enabled(w, a)
    requires a.Fail? || !w.sessions[a.sid].stage.Commit?
    ensures Step(w, a).db == w.db && Step(w, a).log == w.log
  {
    hide Blocked, KeysAreFree, Move;
  }

  /**
   A refusal is the serial one: when a session stops with an error of the service or a constraint of the
   database, running the request alone in that very state is refused with the same error. The one
   difference is a lost race for an e-mail address, which the service reports as a database error.
   */
  lemma RefusalsAreSerial(w: World, a: Action, order: Order)
    requires Inv(w) && Enabled(w, a) && a.Advance?
    requires order.req == w.sessions[a.sid].req
    requires Step(w, a).sessions[a.sid].outcome.Failed?
    ensures var error := Step(w, a).sessions[a.sid].outcome.error;
            Apply(w.db, order) == Refused(if error == DuplicateKey then EmailConflict else error)
  {
    hide Apply;
    RefusalStops(w, a);
    HistoryIsTables(w);
    var s := w.sessions[a.sid];
    assert SessionOk(w.db, s) by {
      hide SessionOk, LocksOk, ClaimsOk, LogOk, Replay;
    }
    hide Inv, Enabled, Step, SessionOk, Consistent, Move, Movable;
    match s.req
    case TopUp(_, _) => TopUpRefusal(w.db, s, a.keys, order);
    case Transfer(_, _, _) => TransferRefusal(w.db, s, a.keys, order);
    case Register(_) => RegisterRefusal(w.db, s, a.keys, order);
  }

  /** A session that fails of itself does so by a refused statement; locks and commits do not fail. */
  lemma RefusalStops(w: World, a: Action)
    requires Inv(w) && Enabled(w, a) && a.Advance? && Step(w, a).sessions[a.sid].outcome.Failed?
    ensures var s := w.sessions[a.sid];
            Movable(s) && Move(w.db, s, a.keys) == Stop(Step(w, a).sessions[a.sid].outcome.error)
  {
    var s := w.sessions[a.sid];
    RunningFits(w, a.sid);
    if AtLock(s) {
      assert SessionOk(w.db, s) by {
        hide SessionOk, LocksOk, ClaimsOk, LogOk, Replay;
      }
      WantedExists(w.db, s);
    }
    hide Inv, SessionOk, StageFits, Blocked, KeysAreFree, Wanted, Flush, ReceiptOf, OrderOf;
    if Movable(s) && Move(w.db, s, a.keys).Next? {
      MoveKeepsShape(w.db, s, a.keys);
    }
    hide Move;
  }

  lemma TopUpRefusal(db: Db, s: Session, keys: Keys, order: Order)
    requires Consistent(db) && SessionOk(db, s) && s.req.TopUp? && order.req == s.req
    requires Movable(s) && Move(db, s, keys).Stop?
    ensures Apply(db, order) == Refused(Move(db, s, keys).error)
    ensures Move(db, s, keys).error != DuplicateKey
  {
    hide MoveTransfer, MoveRegister, HeldIds, DeltaOf, ClaimsFree, SetStatus, Round, HasTxn;
  }

  /** The debit of the source always fits: CHECK (balance >= 0) never decides. */
  lemma DebitFits(db: Db, s: Session)
    requires Consistent(db) && SessionOk(db, s) && s.stage.WriteSource?
    ensures BalanceFits(Row(s, s.source).balance as real - s.req.amount)
    ensures Move(db, s, Keys(0, "")).Next?
  {
    hide DeltaOf, ClaimsFree, SetStatus, HasTxn;
    FittingAmountIsPositive(s.req.amount);
    assert s.source in s.held;
    RoundAfterTaking(Row(s, s.source).balance, s.req.amount);
  }

  lemma TransferRefusal(db: Db, s: Session, keys: Keys, order: Order)
    requires Consistent(db) && SessionOk(db, s) && s.req.Transfer? && order.req == s.req
    requires Movable(s) && Move(db, s, keys).Stop?
    ensures Apply(db, order) == Refused(Move(db, s, keys).error)
    ensures Move(db, s, keys).error != DuplicateKey
  {
    if s.stage.WriteSource? {
      DebitFits(db, s);
    }
    hide DeltaOf, ClaimsFree, SetStatus, Round, HasTxn;
  }

  lemma RegisterRefusal(db: Db, s: Session, keys: Keys, order: Order)
    requires SessionOk(db, s) && s.req.Register? && order.req == s.req
    requires Movable(s) && Move(db, s, keys).Stop?
    ensures Apply(db, order) == Refused(EmailConflict)
    ensures Move(db, s, keys).error in {DuplicateKey, EmailConflict}
  {
    hide DeltaOf, ClaimsFree;
  }

  /** However many transfers compete for a wallet, the balance CHECK never rejects a debit. */
  lemma BalanceCheckNeverDecides(w: World, sid: Sid)
    requires Reachable(w) && sid in w.sessions && w.sessions[sid].stage.WriteSource?
    ensures var s := w.sessions[sid];
            s.req.Transfer? && s.source in w.db.wallets && Row(s, s.source) == w.db.wallets[s.source]
            && BalanceFits(w.db.wallets[s.source].balance as real - s.req.amount)
  {
    hide Reachable, BalanceFits, Round, Replay, SessionOk, LogOk, LocksOk, ClaimsOk;
    ReachableHoldsInv(w);
    ReplayIsConsistent(w.log);
    DebitFits(w.db, w.sessions[sid]);
    SourceIsHeld(w.db, w.sessions[sid]);
  }

  lemma SourceIsHeld(db: Db, s: Session)
    requires SessionOk(db, s) && s.stage.WriteSource?
    ensures s.req.Transfer? && s.source in db.wallets && Row(s, s.source) == db.wallets[s.source]
  {
    hide DeltaOf, ClaimsFree, ChecksPassed;
  }

  /* ---- What is never taken back ---- */

  /** The tables only grow, as far as users, wallets and their owners go. */
  ghost predicate Grows(w: World, w': World) {
    && w.log <= w'.log
    && (forall u :: u in w.db.users ==> u in w'.db.users)
    && (forall x :: x in w.db.wallets ==> x in w'.db.wallets && w'.db.wallets[x].owner == w.db.wallets[x].owner)
  }

  lemma CommitGrows(w: World, sid: Sid)
    requires sid in w.sessions && SessionOk(w.db, w.sessions[sid])
    ensures Grows(w, CommitSession(w, sid))
  {
    var s := w.sessions[sid];
    assert Confined(w.db, s) by {
      if s.req.Register? {
        RegisterIsConfined(w.db, s);
      } else {
        PaymentIsConfined(w.db, s);
      }
    }
    hide SessionOk, ReceiptOf, OrderOf;
  }

  lemma StepGrows(w: World, a: Action)
    requires Inv(w) && Enabled(w, a)
    ensures Grows(w, Step(w, a))
  {
    var s := w.sessions[a.sid];
    assert SessionOk(w.db, s);
    hide Inv, SessionOk, CommitSession, Move, Acquire, Over, Blocked, KeysAreFree;
    if a.Advance? && s.stage.Commit? {
      CommitGrows(w, a.sid);
    } else {
      StepGrowsLog(w, a);
      OnlyCommitsWrite(w, a);
    }
  }

  lemma {:induction false} RunGrows(w: World, run: seq<Action>)
    requires Inv(w) && IsRun(w, run)
    ensures Grows(w, After(w, run))
    decreases |run|
  {
    if run != [] {
      hide Step, Enabled, Inv, Grows;
      StepGrows(w, run[0]);
      StepKeepsInv(w, run[0]);
      RunGrows(Step(w, run[0]), run[1..]);
      GrowthChains(w, Step(w, run[0]), After(w, run));
    } else {
      GrowsNot(w);
    }
  }

  lemma GrowsNot(w: World)
    ensures Grows(w, w)
  {
  }

  lemma GrowthChains(a: World, b: World, c: World)
    requires Grows(a, b) && Grows(b, c)
    ensures Grows(a, c)
  {
  }

  /** Transactions and entries are only appended, in commit order. */
  lemma {:induction false} RunAppends(w: World, run: seq<Action>)
    requires IsRun(w, run)
    ensures w.db.txns <= After(w, run).db.txns && w.db.entries <= After(w, run).db.entries
    decreases |run|
  {
    if run != [] {
      StepAppends(w, run[0]);
      hide Step, Enabled;
      RunAppends(Step(w, run[0]), run[1..]);
    }
  }

  lemma StepAppends(w: World, a: Action)
    requires Enabled(w, a)
    ensures w.db.txns <= Step(w, a).db.txns && w.db.entries <= Step(w, a).db.entries
  {
    hide Blocked, KeysAreFree, Move, ReceiptOf;
  }
}
