/**
 The race for an e-mail address: two registrations find it free, one commits, the other one's insert then
 violates the unique constraint. The loser gets the database's error instead of the service's conflict.
 */
module EmailRace {
  import opened Money
  import opened Tables
  import opened Serial
  import opened Sessions
  import opened Serializability

  /**
   The duplicate-key error comes exactly from the insert of a user whose address was committed since the
   unlocked check. There and nowhere else the service's error differs from the serial one.
   */
  lemma LostRaceIff(w: World, a: Action)
    requires Inv(w) && Enabled(w, a) && a.Advance?
    ensures Step(w, a).sessions[a.sid].outcome == Failed(DuplicateKey) <==> LosesRace(w.db, w.sessions[a.sid])
  {
    var s := w.sessions[a.sid];
    RunningFits(w, a.sid);
    hide Inv, Blocked, KeysAreFree, Flush, OrderOf, ReceiptOf, Wanted;
    if Movable(s) {
      DuplicateIff(w.db, s, a.keys);
      if Move(w.db, s, a.keys).Next? {
        MoveKeepsShape(w.db, s, a.keys);
      }
    }
    hide Move;
  }

  /** A registration about to insert a user whose address is committed. */
  predicate LosesRace(db: Db, s: Session) {
    s.stage.InsertUser? && s.req.Register? && s.req.email in db.byEmail
  }

  lemma DuplicateIff(db: Db, s: Session, keys: Keys)
    requires Movable(s)
    ensures Move(db, s, keys) == Stop(DuplicateKey) <==> LosesRace(db, s)
  {
    hide AmountFits, BalanceFits, Round, Row, SetStatus;
  }

  /** Two registrations and nothing else. */
  function Rivals(a: Session, b: Session): World {
    World(EMPTY, map[], map[0 := a, 1 := b], [])
  }

  /** Both check the address, then the first one registers, then the second one inserts its user. */
  const LOST := [Advance(0, NO_KEYS), Advance(1, NO_KEYS), Advance(0, NO_KEYS), Advance(1, NO_KEYS),
                 Advance(0, Keys(0, "")), Advance(0, Keys(0, "A")), Advance(0, NO_KEYS), Advance(1, Keys(1, ""))]

  lemma RunsOn(w: World, a: Action, w': World, rest: seq<Action>)
    requires Enabled(w, a) && Step(w, a) == w' && IsRun(w', rest)
    ensures IsRun(w, [a] + rest) && After(w, [a] + rest) == After(w', rest)
  {
    hide Step, Enabled;
    assert ([a] + rest)[1..] == rest;
  }

  lemma NobodyElse(w: World, sid: Sid)
    requires sid in w.sessions && w.locks == map[]
    requires forall other :: other in w.sessions && other != sid ==> w.sessions[other].delta == EMPTY
    ensures !Blocked(w, sid) && forall c :: !ClaimedElsewhere(w, sid, c)
  {
  }

  /** A rival goes on while the other one has written nothing. */
  lemma RivalGoesOn(w: World, sid: Sid, keys: Keys, s': Session, rest: seq<Action>)
    requires w.db == EMPTY && w.locks == map[] && sid in w.sessions
    requires forall other :: other in w.sessions && other != sid ==> w.sessions[other].delta == EMPTY
    requires Movable(w.sessions[sid]) && Move(EMPTY, w.sessions[sid], keys) == Next(s')
    requires IsRun(w.(sessions := w.sessions[sid := s']), rest)
    ensures IsRun(w, [Advance(sid, keys)] + rest)
    ensures After(w, [Advance(sid, keys)] + rest) == After(w.(sessions := w.sessions[sid := s']), rest)
  {
    hide Move;
    NobodyElse(w, sid);
    assert Enabled(w, Advance(sid, keys));
    RunsOn(w, Advance(sid, keys), w.(sessions := w.sessions[sid := s']), rest);
  }

  lemma FirstGoesOn(a: Session, b: Session, keys: Keys, a': Session, rest: seq<Action>)
    requires Movable(a) && Move(EMPTY, a, keys) == Next(a') && b.delta == EMPTY && IsRun(Rivals(a', b), rest)
    ensures IsRun(Rivals(a, b), [Advance(0, keys)] + rest)
    ensures After(Rivals(a, b), [Advance(0, keys)] + rest) == After(Rivals(a', b), rest)
  {
    hide Move;
    assert Rivals(a', b) == Rivals(a, b).(sessions := Rivals(a, b).sessions[0 := a']);
    RivalGoesOn(Rivals(a, b), 0, keys, a', rest);
  }

  lemma SecondGoesOn(a: Session, b: Session, keys: Keys, b': Session, rest: seq<Action>)
    requires Movable(b) && Move(EMPTY, b, keys) == Next(b') && a.delta == EMPTY && IsRun(Rivals(a, b'), rest)
    ensures IsRun(Rivals(a, b), [Advance(1, keys)] + rest)
    ensures After(Rivals(a, b), [Advance(1, keys)] + rest) == After(Rivals(a, b'), rest)
  {
    hide Move;
    assert Rivals(a, b') == Rivals(a, b).(sessions := Rivals(a, b).sessions[1 := b']);
    RivalGoesOn(Rivals(a, b), 1, keys, b', rest);
  }

  const WON := Registered(0, "e", "A")

  const FRESH := Fresh(Register("e"))
  const CHECKED := FRESH.(stage := Stage.Begin)
  const BEGUN := FRESH.(stage := InsertUser)
  const NAMED := FRESH.(stage := InsertWallet, delta := EMPTY.(users := map[0 := "e"], byEmail := map["e" := 0]))
  const FUNDED := FRESH.(stage := Stage.Commit, target := "A",
                         delta := Db(map[0 := "e"], map["e" := 0], map["A" := Wallet(0, 0)], map[0 := "A"], [], []))

  /** The last two steps: the commit of the first registration, and the insert of the second. */
  lemma RaceEnds() returns (end: World)
    ensures IsRun(Rivals(FUNDED, BEGUN), LOST[6..]) && After(Rivals(FUNDED, BEGUN), LOST[6..]) == end
    ensures end.sessions.Keys == {0, 1}
    ensures end.sessions[0].outcome == Committed(WON)
            && end.sessions[1].outcome == Failed(DuplicateKey)
  {
    var w := Rivals(FUNDED, BEGUN);
    WinnerCommits(w);
    var w7 := Step(w, LOST[6]);
    LoserInserts(w7);
    end := Step(w7, LOST[7]);
    hide Step, Enabled;
    RunsOn(w7, LOST[7], end, []);
    RunsOn(w, LOST[6], w7, [LOST[7]] + []);
    assert LOST[6..] == [LOST[6]] + ([LOST[7]] + []);
  }

  lemma WinnerCommits(w: World)
    requires w == Rivals(FUNDED, BEGUN)
    ensures Enabled(w, LOST[6])
    ensures var w' := Step(w, LOST[6]);
            && w'.db == FUNDED.delta && w'.locks == map[]
            && w'.sessions == map[0 := FUNDED.(stage := Done, delta := EMPTY, outcome := Committed(WON)), 1 := BEGUN]
  {
    NobodyElse(w, 0);
    hide Blocked;
  }

  lemma LoserInserts(w: World)
    requires w.db == FUNDED.delta && w.locks == map[] && w.sessions.Keys == {0, 1}
    requires w.sessions[0].delta == EMPTY && w.sessions[1] == BEGUN
    ensures Enabled(w, LOST[7])
    ensures var w' := Step(w, LOST[7]);
            && w'.sessions.Keys == {0, 1} && w'.sessions[0] == w.sessions[0]
            && w'.sessions[1].outcome == Failed(DuplicateKey)
  {
    NobodyElse(w, 1);
    hide Blocked;
  }

  lemma RaceStatements()
    ensures Move(EMPTY, FRESH, NO_KEYS) == Next(CHECKED) && Move(EMPTY, CHECKED, NO_KEYS) == Next(BEGUN)
    ensures Move(EMPTY, BEGUN, Keys(0, "")) == Next(NAMED) && Move(EMPTY, NAMED, Keys(0, "A")) == Next(FUNDED)
    ensures Movable(FRESH) && Movable(CHECKED) && Movable(BEGUN) && Movable(NAMED)
  {
  }

  /** The race can be lost: the second session ends with the duplicate-key error, the first one is committed. */
  lemma RaceCanBeLost() returns (end: World)
    ensures Initial(Rivals(FRESH, FRESH)) && IsRun(Rivals(FRESH, FRESH), LOST)
            && After(Rivals(FRESH, FRESH), LOST) == end
    ensures && end.sessions.Keys == {0, 1}
            && end.sessions[0].outcome == Committed(WON)
            && end.sessions[1].outcome == Failed(DuplicateKey)
  {
    end := RaceEnds();
    RaceStatements();
    hide Move, Movable, Step, Enabled, IsRun, After;
    FirstGoesOn(NAMED, BEGUN, Keys(0, "A"), FUNDED, LOST[6..]);
    assert LOST[5..] == [LOST[5]] + LOST[6..];
    FirstGoesOn(BEGUN, BEGUN, Keys(0, ""), NAMED, LOST[5..]);
    assert LOST[4..] == [LOST[4]] + LOST[5..];
    SecondGoesOn(BEGUN, CHECKED, NO_KEYS, BEGUN, LOST[4..]);
    assert LOST[3..] == [LOST[3]] + LOST[4..];
    FirstGoesOn(CHECKED, CHECKED, NO_KEYS, BEGUN, LOST[3..]);
    assert LOST[2..] == [LOST[2]] + LOST[3..];
    SecondGoesOn(CHECKED, FRESH, NO_KEYS, CHECKED, LOST[2..]);
    assert LOST[1..] == [LOST[1]] + LOST[2..];
    FirstGoesOn(FRESH, FRESH, NO_KEYS, CHECKED, LOST[1..]);
    assert LOST == [LOST[0]] + LOST[1..];
  }
}
