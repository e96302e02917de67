/**
 Rows are locked in one strict total order, so sessions never wait in a circle; some session can always
 go on with its next statement, and every maximal run ends with all sessions over and no row locked.
 */
module Liveness {
  import opened Sums
  import opened Money
  import opened WalletOrder
  import opened Tables
  import opened Sessions
  import opened Serializability

  /* ---- Nobody waits in a circle ---- */

  /** Each session waits for the next one. */
  ghost predicate WaitChain(w: World, chain: seq<Sid>) {
    && |chain| >= 2
    && (forall sid :: sid in chain ==> sid in w.sessions)
    && (forall i :: 0 <= i < |chain| - 1 ==> WaitsFor(w, chain[i], chain[i + 1]))
  }

  /** A session asks for rows above the ones it holds. */
  lemma WantsAboveHeld(db: Db, s: Session)
    requires SessionOk(db, s) && AtLock(s)
    ensures forall x :: x in s.held ==> Less(x, Wanted(s))
  {
    LessIsTotal(s.source, s.target);
  }

  /** The holder of an uncommitted e-mail address is past every wait. */
  lemma ClaimantDoesNotWait(db: Db, s: Session, email: Email)
    requires SessionOk(db, s) && Claims(s, EmailClaim(email))
    ensures !AtLock(s) && !s.stage.InsertUser? && !s.stage.Done?
  {
    hide ClaimsFree, ReadsHold, ChecksPassed, HeldCurrent;
  }

  /** Along two consecutive waits the wanted wallet IDs ascend. */
  lemma WaitAscends(w: World, a: Sid, b: Sid, c: Sid)
    requires Inv(w) && a in w.sessions && b in w.sessions && c in w.sessions
    requires WaitsFor(w, a, b) && WaitsFor(w, b, c)
    ensures AtLock(w.sessions[a]) && AtLock(w.sessions[b])
    ensures Less(Wanted(w.sessions[a]), Wanted(w.sessions[b]))
  {
    assert SessionOk(w.db, w.sessions[b]);
    hide SessionOk, Wanted, Claims, Replay, LogOk, ClaimsOk;
    if w.sessions[a].stage.InsertUser? {
      ClaimantDoesNotWait(w.db, w.sessions[b], w.sessions[a].req.email);
    } else if AtLock(w.sessions[b]) {
      WantsAboveHeld(w.db, w.sessions[b]);
    } else {
      RegistrationsHoldNoRows(w.db, w.sessions[b]);
    }
  }

  lemma RegistrationsHoldNoRows(db: Db, s: Session)
    requires SessionOk(db, s) && s.stage.InsertUser?
    ensures s.held == map[]
  {
    hide DeltaOf, ClaimsFree, ReadsHold, ChecksPassed;
  }

  lemma {:induction false} ChainAscends(w: World, chain: seq<Sid>, last: Sid)
    requires Inv(w) && WaitChain(w, chain) && last in w.sessions && WaitsFor(w, chain[|chain| - 1], last)
    ensures Less(Wanted(w.sessions[chain[0]]), Wanted(w.sessions[chain[|chain| - 1]]))
    decreases |chain|
  {
    hide Inv, WaitsFor, Wanted;
    var n := |chain|;
    WaitAscends(w, chain[n - 2], chain[n - 1], last);
    if n > 2 {
      var init := chain[..n - 1];
      assert forall i :: 0 <= i < n - 1 ==> init[i] == chain[i];
      ChainAscends(w, init, chain[n - 1]);
      LessIsTransitive(Wanted(w.sessions[chain[0]]), Wanted(w.sessions[chain[n - 2]]),
                       Wanted(w.sessions[chain[n - 1]]));
    }
  }

  /** Deadlock freedom: no chain of waiting sessions, of any length, closes. */
  lemma NoCircularWait(w: World, chain: seq<Sid>)
    requires Inv(w) && WaitChain(w, chain)
    ensures chain[0] != chain[|chain| - 1]
  {
    hide Inv, WaitsFor, Wanted;
    if chain[0] == chain[|chain| - 1] {
      assert WaitsFor(w, chain[0], chain[1]);
      ChainAscends(w, chain, chain[1]);
      LessIsIrreflexive(Wanted(w.sessions[chain[0]]));
    }
  }

  /* ---- Some session can go on ---- */

  lemma FreeKeys(w: World, sid: Sid) returns (keys: Keys)
    requires sid in w.sessions
    ensures KeysAreFree(w, sid, keys)
  {
    var stored := set t | t in w.db.txns :: t.id;
    var pending := set other, t | other in w.sessions && t in w.sessions[other].delta.txns :: t.id;
    var users := set other, u | other in w.sessions && u in w.sessions[other].delta.users :: u;
    var wallets := set other, x | other in w.sessions && x in w.sessions[other].delta.wallets :: x;
    var id := FreshNat(stored + pending + users + w.db.users.Keys + w.db.byOwner.Keys);
    var wallet := FreshId(wallets + w.db.wallets.Keys);
    keys := Keys(id, wallet);
    assert !Taken(w.db, TxnClaim(id)) && !ClaimedElsewhere(w, sid, TxnClaim(id)) by {
      assert forall t :: t in w.db.txns ==> t.id in stored;
      assert forall other, t :: other in w.sessions && t in w.sessions[other].delta.txns ==> t.id in pending;
    }
    assert !ClaimedElsewhere(w, sid, UserClaim(id)) by {
      assert forall other, u :: other in w.sessions && u in w.sessions[other].delta.users ==> u in users;
    }
    assert !ClaimedElsewhere(w, sid, WalletClaim(wallet)) by {
      assert forall other, x :: other in w.sessions && x in w.sessions[other].delta.wallets ==> x in wallets;
    }
  }

  lemma UnblockedCanStep(w: World, sid: Sid)
    requires sid in w.sessions && !w.sessions[sid].stage.Done? && !Blocked(w, sid)
    ensures exists a: Action :: a.Advance? && a.sid == sid && Enabled(w, a)
  {
    hide KeysAreFree, Blocked;
    var keys := FreeKeys(w, sid);
    assert Enabled(w, Advance(sid, keys));
  }

  /** Among sessions waiting for rows, the one that holds the greatest wanted row does not wait. */
  lemma HolderOfGreatest(w: World, sid: Sid) returns (free: Sid)
    requires Inv(w) && sid in w.sessions && AtLock(w.sessions[sid]) && Blocked(w, sid)
    ensures free in w.sessions && !w.sessions[free].stage.Done? && !Blocked(w, free)
  {
    hide SessionOk, Wanted, Claims, Replay, LogOk, ClaimsOk;
    var waiting := set s | s in w.sessions && AtLock(w.sessions[s]) && Wanted(w.sessions[s]) in w.locks
                           && w.locks[Wanted(w.sessions[s])] != s :: Wanted(w.sessions[s]);
    assert Wanted(w.sessions[sid]) in waiting;
    var top := Greatest(waiting);
    free := w.locks[top];
    HolderIsUnfinished(w.db, w.sessions[free], top);
    if AtLock(w.sessions[free]) {
      WantsAboveHeld(w.db, w.sessions[free]);
      assert Wanted(w.sessions[free]) !in waiting;
    } else if w.sessions[free].stage.InsertUser? {
      RegistrationsHoldNoRows(w.db, w.sessions[free]);
    }
  }

  lemma HolderIsUnfinished(db: Db, s: Session, x: WalletId)
    requires SessionOk(db, s) && x in s.held
    ensures !s.stage.Done?
  {
    hide DeltaOf, ClaimsFree, ReadsHold, ChecksPassed;
  }

  /** Progress: while any session is unfinished, one can execute its next statement, no failure needed. */
  lemma SomeSessionCanStep(w: World, sid: Sid)
    requires Inv(w) && sid in w.sessions && !w.sessions[sid].stage.Done?
    ensures exists a: Action :: a.Advance? && Enabled(w, a)
  {
    hide Inv, Enabled;
    if !Blocked(w, sid) {
      UnblockedCanStep(w, sid);
    } else if AtLock(w.sessions[sid]) {
      var free := HolderOfGreatest(w, sid);
      UnblockedCanStep(w, free);
    } else {
      var other := UnblockedClaimant(w, sid);
      UnblockedCanStep(w, other);
    }
  }

  lemma UnblockedClaimant(w: World, sid: Sid) returns (other: Sid)
    requires Inv(w) && sid in w.sessions && !AtLock(w.sessions[sid]) && Blocked(w, sid)
    ensures other in w.sessions && !w.sessions[other].stage.Done? && !Blocked(w, other)
  {
    other :| other in w.sessions && WaitsFor(w, sid, other);
    assert SessionOk(w.db, w.sessions[other]);
    hide SessionOk, Claims, Inv;
    ClaimantDoesNotWait(w.db, w.sessions[other], w.sessions[sid].req.email);
  }

  /* ---- Every run ends ---- */

  /** Statements still to execute, over all sessions. */
  ghost function Remaining(w: World): int {
    Total(Remainders(w.sessions))
  }

  ghost function Remainders(sessions: map<Sid, Session>): map<Sid, int> {
    map sid | sid in sessions :: Rank(Done) - Rank(sessions[sid].stage)
  }

  lemma MoveRaisesRank(db: Db, s: Session, keys: Keys)
    requires Movable(s) && Move(db, s, keys).Next?
    ensures Rank(s.stage) < Rank(Move(db, s, keys).session.stage)
  {
    hide AmountFits, BalanceFits, Round, SetStatus, Row;
  }

  lemma StepRaisesRank(w: World, a: Action)
    requires Enabled(w, a) && StageFits(w.sessions[a.sid])
    ensures Step(w, a).sessions.Keys == w.sessions.Keys
    ensures Step(w, a).sessions == w.sessions[a.sid := Step(w, a).sessions[a.sid]]
    ensures Rank(w.sessions[a.sid].stage) < Rank(Step(w, a).sessions[a.sid].stage)
  {
    hide Blocked, KeysAreFree, Move, Flush, ReceiptOf, Wanted;
    var s := w.sessions[a.sid];
    if a.Advance? && Movable(s) && Move(w.db, s, a.keys).Next? {
      MoveRaisesRank(w.db, s, a.keys);
    }
    hide StageFits;
  }

  lemma OneRemainder(sessions: map<Sid, Session>, sid: Sid, s: Session)
    requires sid in sessions
    ensures Total(Remainders(sessions[sid := s]))
            == Total(Remainders(sessions)) + Rank(sessions[sid].stage) - Rank(s.stage)
  {
    hide Rank;
    var left := Rank(Done) - Rank(s.stage);
    TotalAfterUpdate(Remainders(sessions), sid, left);
    assert Remainders(sessions[sid := s]) == Remainders(sessions)[sid := left];
  }

  lemma StepUsesUp(w: World, a: Action)
    requires Inv(w) && Enabled(w, a)
    ensures Remaining(Step(w, a)) < Remaining(w)
  {
    assert StageFits(w.sessions[a.sid]);
    hide Inv, Step, StageFits, Blocked, KeysAreFree, Rank;
    StepRaisesRank(w, a);
    OneRemainder(w.sessions, a.sid, Step(w, a).sessions[a.sid]);
  }

  lemma {:induction false} RunUsesUp(w: World, run: seq<Action>)
    requires Inv(w) && IsRun(w, run)
    ensures Remaining(After(w, run)) <= Remaining(w) - |run|
    decreases |run|
  {
    if run != [] {
      hide Inv;
      StepUsesUp(w, run[0]);
      StepKeepsInv(w, run[0]);
      RunUsesUp(Step(w, run[0]), run[1..]);
    }
  }

  /** Termination: no run has more than thirteen steps a session. */
  lemma RunsAreBounded(w: World, run: seq<Action>)
    requires Initial(w) && IsRun(w, run)
    ensures |run| <= 13 * |w.sessions|
  {
    InitialHoldsInv(w);
    hide Inv, Initial, IsRun, After;
    RunUsesUp(w, run);
    RemainingIsBounded(w);
    RemainingIsBounded(After(w, run));
  }

  lemma RemainingIsBounded(w: World)
    ensures 0 <= Remaining(w) <= 13 * |w.sessions|
  {
    var left := Remainders(w.sessions);
    TotalOfBounded(left, 13);
    assert left.Keys == w.sessions.Keys;
    assert |left| == |w.sessions|;
  }

  /** A run that cannot go on has every session committed or rolled back, and an empty lock table. */
  lemma MaximalRunsEndClean(w: World, run: seq<Action>)
    requires Initial(w) && IsRun(w, run)
    requires !exists a: Action :: a.Advance? && Enabled(After(w, run), a)
    ensures forall sid :: sid in After(w, run).sessions ==> !After(w, run).sessions[sid].outcome.Running?
    ensures After(w, run).locks == map[]
  {
    InitialHoldsInv(w);
    RunKeepsInv(w, run);
    var end := After(w, run);
    forall sid | sid in end.sessions ensures end.sessions[sid].stage.Done? {
      if !end.sessions[sid].stage.Done? {
        SomeSessionCanStep(end, sid);
      }
    }
    NoHoldersNoLocks(end);
  }

  lemma NoHoldersNoLocks(w: World)
    requires Inv(w) && forall sid :: sid in w.sessions ==> w.sessions[sid].stage.Done?
    ensures w.locks == map[]
    ensures forall sid :: sid in w.sessions ==> !w.sessions[sid].outcome.Running?
  {
    hide DeltaOf, ClaimsFree, ReadsHold, ChecksPassed, LogOk, ClaimsOk, Replay;
    assert forall sid :: sid in w.sessions ==> w.sessions[sid].held.Keys == {};
    assert forall x :: x !in w.locks;
  }
}
