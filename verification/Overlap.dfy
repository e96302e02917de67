/**
 The idempotency layer under overlapping calls: lookup, handler and store are three steps of each call,
 and the steps of different calls interleave.
 */
module Overlap {
  import opened Wrappers
  import opened Tables
  import opened Serial
  import opened Idempotency

  type Rid = nat

  datatype Phase =
    | Waiting
    | Missed
    | Ran(response: Response)
    | Replayed(response: Response)
    | Answered(response: Response)

  datatype InFlight = InFlight(key: Key, req: Request, phase: Phase)

  datatype Flow = Flow(db: Db, cache: Cache, now: real, calls: map<Rid, InFlight>)

  /** A run draws its transaction ID, and may fail on the way; Other is a request that bypasses the layer. */
  datatype Event =
    | Look(rid: Rid, time: real)
    | Run(rid: Rid, time: real, id: nat, fault: bool)
    | Save(rid: Rid, time: real)
    | Other(order: Order, time: real)

  /** A lookup that finds a response ends the call with it. */
  function PhaseAfter(found: Option<Response>): Phase {
    match found
    case Some(response) => Replayed(response)
    case None => Missed
  }

  /** A call without a key is refused before it looks anything up. */
  predicate Enabled(f: Flow, e: Event) {
    && f.now <= e.time
    && (!e.Other? ==> e.rid in f.calls)
    && match e
       case Look(rid, _) => f.calls[rid].phase.Waiting? && f.calls[rid].key != ""
       case Run(rid, _, _, _) => f.calls[rid].phase.Missed?
       case Save(rid, _) => f.calls[rid].phase.Ran?
       case Other(order, _) => Apply(f.db, order).Accepted?
  }

  function Step(f: Flow, e: Event): Flow
    requires Enabled(f, e)
  {
    match e
    case Look(rid, time) =>
      var c := f.calls[rid];
      f.(now := time, calls := f.calls[rid := c.(phase := PhaseAfter(Lookup(f.cache, c.key, time)))])
    case Run(rid, time, id, fault) =>
      var c := f.calls[rid];
      var (db, response) := Handle(f.db, Order(c.req, id, ""), fault);
      f.(now := time, db := db, calls := f.calls[rid := c.(phase := Ran(response))])
    case Save(rid, time) =>
      var c := f.calls[rid];
      var response := c.phase.response;
      var cache := if Success(response.status) then f.cache[c.key := Stored(response, time + DAY)] else f.cache;
      f.(now := time, cache := cache, calls := f.calls[rid := c.(phase := Answered(response))])
    case Other(order, time) => f.(now := time, db := Apply(f.db, order).db)
  }

  ghost predicate IsFlow(f: Flow, events: seq<Event>)
    decreases |events|
  {
    events == [] || (Enabled(f, events[0]) && IsFlow(Step(f, events[0]), events[1..]))
  }

  ghost function After(f: Flow, events: seq<Event>): Flow
    requires IsFlow(f, events)
    decreases |events|
  {
    if events == [] then f else After(Step(f, events[0]), events[1..])
  }

  /** No stored response outlives a day from now; true at the start and kept by every step. */
  ghost predicate LifetimesOk(f: Flow) {
    forall key :: key in f.cache ==> f.cache[key].expires <= f.now + DAY
  }

  ghost predicate Fresh(f: Flow) {
    f.cache == map[] && forall rid :: rid in f.calls ==> f.calls[rid].phase.Waiting?
  }

  /** The calls with this key whose lookup missed. */
  function Missers(f: Flow, key: Key): set<Rid> {
    set rid | rid in f.calls && f.calls[rid].key == key && !f.calls[rid].phase.Waiting? && !f.calls[rid].phase.Replayed?
  }

  /** The calls with this key that have run the handler. */
  function Runners(f: Flow, key: Key): set<Rid> {
    set rid | rid in f.calls && f.calls[rid].key == key && (f.calls[rid].phase.Ran? || f.calls[rid].phase.Answered?)
  }

  lemma StepKeepsLifetimes(f: Flow, e: Event)
    requires LifetimesOk(f) && Enabled(f, e)
    ensures LifetimesOk(Step(f, e))
  {
    hide Handle, Apply;
  }

  /** While a stored response lives, a step with its key neither shortens its life nor adds a miss. */
  lemma LiveKeyStep(f: Flow, e: Event, key: Key, until: real)
    requires LifetimesOk(f) && Enabled(f, e) && e.time < until
    requires key in f.cache && until <= f.cache[key].expires
    ensures key in Step(f, e).cache && until <= Step(f, e).cache[key].expires
    ensures Missers(Step(f, e), key) == Missers(f, key)
  {
    hide Handle, Apply;
  }

  lemma {:induction false} LiveKeyRun(f: Flow, events: seq<Event>, key: Key, until: real)
    requires LifetimesOk(f) && IsFlow(f, events)
    requires key in f.cache && until <= f.cache[key].expires
    requires forall e :: e in events ==> e.time < until
    ensures Missers(After(f, events), key) == Missers(f, key)
    decreases |events|
  {
    if events != [] {
      LiveKeyStep(f, events[0], key, until);
      StepKeepsLifetimes(f, events[0]);
      hide Step, Enabled, Missers, LifetimesOk;
      LiveKeyRun(Step(f, events[0]), events[1..], key, until);
    }
  }

  lemma {:induction false} LifetimesHold(f: Flow, events: seq<Event>)
    requires LifetimesOk(f) && IsFlow(f, events)
    ensures LifetimesOk(After(f, events))
    decreases |events|
  {
    if events != [] {
      StepKeepsLifetimes(f, events[0]);
      hide Step, Enabled, LifetimesOk;
      LifetimesHold(Step(f, events[0]), events[1..]);
    }
  }

  lemma {:induction false} Joined(f: Flow, first: seq<Event>, rest: seq<Event>)
    requires IsFlow(f, first) && IsFlow(After(f, first), rest)
    ensures IsFlow(f, first + rest) && After(f, first + rest) == After(After(f, first), rest)
    decreases |first|
  {
    hide Step, Enabled;
    if first == [] {
      assert first + rest == rest;
    } else {
      Joined(Step(f, first[0]), first[1..], rest);
      assert (first + rest)[1..] == first[1..] + rest;
    }
  }

  lemma {:induction false} TimesArePast(f: Flow, events: seq<Event>)
    requires IsFlow(f, events)
    ensures f.now <= After(f, events).now
    ensures forall e :: e in events ==> e.time <= After(f, events).now
    decreases |events|
  {
    if events != [] {
      assert f.now <= Step(f, events[0]).now == events[0].time;
      hide Step, Enabled;
      TimesArePast(Step(f, events[0]), events[1..]);
      assert events == [events[0]] + events[1..];
    }
  }

  /**
   The bound under overlap. Take any run, and go on from a state in which a response for `key` is stored,
   with steps inside its lifetime. Then every call with this key that has ever run the handler had already
   missed its lookup by that state; so the handler runs at most as often as lookups came before the store.
   */
  lemma HandlerRunsAreBounded(start: Flow, first: seq<Event>, rest: seq<Event>, key: Key)
    requires Fresh(start) && IsFlow(start, first) && IsFlow(After(start, first), rest)
    requires key in After(start, first).cache
    requires forall e :: e in rest ==> e.time < After(start, first).cache[key].expires
    ensures var stored := After(start, first); var end := After(stored, rest);
            && Runners(end, key) <= Missers(stored, key)
            && |Runners(end, key)| <= |Missers(stored, key)|
  {
    LifetimesHold(start, first);
    var stored := After(start, first);
    LiveKeyRun(stored, rest, key, stored.cache[key].expires);
    var end := After(stored, rest);
    Subset(Runners(end, key), Missers(stored, key));
  }

  lemma {:induction false} Subset<T>(a: set<T>, b: set<T>)
    requires a <= b
    ensures |a| <= |b|
  {
    if a != {} {
      var x :| x in a;
      Subset(a - {x}, b - {x});
    }
  }

  /** In particular a call that first looks the key up while it is stored never reaches the handler. */
  lemma StoredKeyIsReplayed(f: Flow, events: seq<Event>, rid: Rid)
    requires LifetimesOk(f) && IsFlow(f, events)
    requires rid in f.calls && f.calls[rid].phase.Waiting? && f.calls[rid].key in f.cache
    requires forall e :: e in events ==> e.time < f.cache[f.calls[rid].key].expires
    ensures rid !in Runners(After(f, events), f.calls[rid].key)
  {
    var key := f.calls[rid].key;
    LiveKeyRun(f, events, key, f.cache[key].expires);
    assert rid !in Missers(f, key);
  }

  /* ---- Exactly how many run ---- */

  /** The calls with this key that have looked it up. */
  function Lookers(f: Flow, key: Key): set<Rid> {
    set rid | rid in f.calls && f.calls[rid].key == key && !f.calls[rid].phase.Waiting?
  }

  /** Every call with this key has its answer. */
  ghost predicate AllAnswered(f: Flow, key: Key) {
    forall rid :: rid in f.calls && f.calls[rid].key == key ==>
      f.calls[rid].phase.Answered? || f.calls[rid].phase.Replayed?
  }

  /** The bound is exact: once all calls with the key are answered, the handler has run for each miss. */
  lemma RunnersAreMissers(start: Flow, first: seq<Event>, rest: seq<Event>, key: Key)
    requires Fresh(start) && IsFlow(start, first) && IsFlow(After(start, first), rest)
    requires key in After(start, first).cache
    requires forall e :: e in rest ==> e.time < After(start, first).cache[key].expires
    requires AllAnswered(After(After(start, first), rest), key)
    ensures Runners(After(After(start, first), rest), key) == Missers(After(start, first), key)
  {
    LifetimesHold(start, first);
    var stored := After(start, first);
    LiveKeyRun(stored, rest, key, stored.cache[key].expires);
  }

  ghost predicate NeverStored(f: Flow, key: Key) {
    && key !in f.cache
    && forall rid :: rid in f.calls && f.calls[rid].key == key ==> !f.calls[rid].phase.Replayed?
  }

  lemma NeverStoredStep(f: Flow, e: Event, key: Key)
    requires Enabled(f, e)
    ensures key in f.cache ==> key in Step(f, e).cache
    ensures NeverStored(f, key) && key !in Step(f, e).cache ==> NeverStored(Step(f, e), key)
  {
    hide Handle, Apply;
  }

  lemma {:induction false} CacheKeepsKeys(f: Flow, events: seq<Event>, key: Key)
    requires IsFlow(f, events) && key in f.cache
    ensures key in After(f, events).cache
    decreases |events|
  {
    if events != [] {
      NeverStoredStep(f, events[0], key);
      hide Step, Enabled;
      CacheKeepsKeys(Step(f, events[0]), events[1..], key);
    }
  }

  /** Until a key is stored, every lookup of it misses. */
  lemma {:induction false} MissesUntilStored(f: Flow, events: seq<Event>, key: Key)
    requires IsFlow(f, events) && NeverStored(f, key) && key !in After(f, events).cache
    ensures NeverStored(After(f, events), key)
    decreases |events|
  {
    if events != [] {
      var next := Step(f, events[0]);
      NeverStoredStep(f, events[0], key);
      hide Step, Enabled, NeverStored;
      if key in next.cache {
        CacheKeepsKeys(next, events[1..], key);
      }
      MissesUntilStored(next, events[1..], key);
    }
  }

  /**
   At most one call runs if and only if at most one looked the key up before the first store. For a key
   whose first response is stored by `save`, and within the lifetime of that response, the handler has run,
   once all calls are answered, for exactly the calls that had looked the key up by then.
   */
  lemma OneRunIff(start: Flow, first: seq<Event>, save: Event, rest: seq<Event>, key: Key)
    requires Fresh(start) && IsFlow(start, first) && key !in After(start, first).cache
    requires Enabled(After(start, first), save) && key in Step(After(start, first), save).cache
    requires IsFlow(Step(After(start, first), save), rest)
    requires forall e :: e in rest ==> e.time < save.time + 86_400.0
    requires AllAnswered(After(Step(After(start, first), save), rest), key)
    ensures var before := After(start, first); var end := After(Step(before, save), rest);
            && Runners(end, key) == Lookers(before, key)
            && (|Runners(end, key)| <= 1 <==> |Lookers(before, key)| <= 1)
  {
    var before := After(start, first);
    var stored := Step(before, save);
    LifetimesHold(start, first);
    StepKeepsLifetimes(before, save);
    MissesUntilStored(start, first, key);
    SaveKeepsMissers(before, save, key);
    hide Step, Enabled;
    LiveKeyRun(stored, rest, key, stored.cache[key].expires);
    assert Missers(before, key) == Lookers(before, key);
    assert Runners(After(stored, rest), key) == Missers(After(stored, rest), key);
  }

  lemma SaveKeepsMissers(f: Flow, e: Event, key: Key)
    requires Enabled(f, e) && key !in f.cache && key in Step(f, e).cache
    ensures Missers(Step(f, e), key) == Missers(f, key)
  {
    hide Handle, Apply;
  }

  /* ---- How many take effect ---- */

  /** The calls with this key whose handler run took effect. */
  function Effects(f: Flow, key: Key): set<Rid> {
    set rid | rid in f.calls && f.calls[rid].key == key && TookEffect(f.calls[rid].phase)
  }

  predicate TookEffect(phase: Phase) {
    (phase.Ran? || phase.Answered?) && Success(phase.response.status)
  }

  lemma {:induction false} EffectsStay(f: Flow, events: seq<Event>, key: Key)
    requires IsFlow(f, events)
    ensures Effects(f, key) <= Effects(After(f, events), key)
    decreases |events|
  {
    if events != [] {
      assert Effects(f, key) <= Effects(Step(f, events[0]), key) by {
        hide Handle, Apply;
      }
      hide Step, Enabled, Effects;
      EffectsStay(Step(f, events[0]), events[1..], key);
    }
  }

  lemma SaveIsEffect(f: Flow, e: Event, key: Key)
    requires Enabled(f, e) && key !in f.cache && key in Step(f, e).cache
    ensures e.Save? && e.rid in Effects(Step(f, e), key)
  {
    hide Handle, Apply;
  }

  /**
   Within the lifetime of the first stored response, the calls that have taken effect had all looked the key
   up before it was stored; the stored one is among them. So a second effect comes from a second early lookup.
   */
  lemma EffectsWereLookedUp(start: Flow, first: seq<Event>, save: Event, rest: seq<Event>, key: Key)
    requires Fresh(start) && IsFlow(start, first) && key !in After(start, first).cache
    requires Enabled(After(start, first), save) && key in Step(After(start, first), save).cache
    requires IsFlow(Step(After(start, first), save), rest)
    requires forall e :: e in rest ==> e.time < save.time + 86_400.0
    ensures var before := After(start, first); var end := After(Step(before, save), rest);
            && save.Save? && save.rid in Effects(end, key)
            && Effects(end, key) <= Lookers(before, key)
  {
    var before := After(start, first);
    var stored := Step(before, save);
    LifetimesHold(start, first);
    StepKeepsLifetimes(before, save);
    SaveKeepsMissers(before, save, key);
    SaveIsEffect(before, save, key);
    hide Step, Enabled;
    EffectsStay(stored, rest, key);
    LiveKeyRun(stored, rest, key, stored.cache[key].expires);
    assert Effects(After(stored, rest), key) <= Missers(After(stored, rest), key);
    assert Missers(before, key) <= Lookers(before, key);
  }

  /* ---- What is stored, and what a replayed call is told ---- */

  /** Storing keeps a success under its call's key for 24 hours, and nothing else changes the cache. */
  lemma OnlySuccessesAreStored(f: Flow, e: Event)
    requires Enabled(f, e)
    ensures if e.Save? && 200 <= f.calls[e.rid].phase.response.status < 300
            then Step(f, e).cache
              == f.cache[f.calls[e.rid].key := Stored(f.calls[e.rid].phase.response, e.time + 86_400.0)]
            else Step(f, e).cache == f.cache
  {
    hide Handle, Apply;
  }

  /** The response of a call with this key that took effect and has been answered. */
  ghost predicate IsAnswerOf(f: Flow, key: Key, response: Response) {
    && 200 <= response.status < 300
    && exists rid :: rid in f.calls && f.calls[rid].key == key && f.calls[rid].phase == Answered(response)
  }

  /** Whatever is stored, and whatever a replayed call was told, is such a response. */
  ghost predicate RepliesOk(f: Flow) {
    && (forall key :: key in f.cache ==> IsAnswerOf(f, key, f.cache[key].response))
    && (forall rid :: rid in f.calls && f.calls[rid].phase.Replayed? ==>
          IsAnswerOf(f, f.calls[rid].key, f.calls[rid].phase.response))
  }

  lemma AnswersStay(f: Flow, e: Event, key: Key, response: Response)
    requires Enabled(f, e) && IsAnswerOf(f, key, response)
    ensures IsAnswerOf(Step(f, e), key, response)
  {
    hide Handle, Apply, Lookup;
    var rid :| rid in f.calls && f.calls[rid].key == key && f.calls[rid].phase == Answered(response);
    assert rid in Step(f, e).calls && Step(f, e).calls[rid] == f.calls[rid];
  }

  lemma SavedIsAnswer(f: Flow, e: Event)
    requires Enabled(f, e) && e.Save? && 200 <= f.calls[e.rid].phase.response.status < 300
    ensures IsAnswerOf(Step(f, e), f.calls[e.rid].key, f.calls[e.rid].phase.response)
  {
    assert Step(f, e).calls[e.rid].phase == Answered(f.calls[e.rid].phase.response);
  }

  lemma StepKeepsReplies(f: Flow, e: Event)
    requires Enabled(f, e) && RepliesOk(f)
    ensures RepliesOk(Step(f, e))
  {
    OnlySuccessesAreStored(f, e);
    var f' := Step(f, e);
    forall key | key in f'.cache ensures IsAnswerOf(f', key, f'.cache[key].response) {
      if key in f.cache && f'.cache[key] == f.cache[key] {
        AnswersStay(f, e, key, f.cache[key].response);
      } else {
        SavedIsAnswer(f, e);
      }
    }
    forall rid | rid in f'.calls && f'.calls[rid].phase.Replayed?
      ensures IsAnswerOf(f', f'.calls[rid].key, f'.calls[rid].phase.response)
    {
      ReplayComesFrom(f, e, rid);
      AnswersStay(f, e, f'.calls[rid].key, f'.calls[rid].phase.response);
    }
  }

  /** A replayed call was replayed before, or has just found the response in the cache. */
  lemma ReplayComesFrom(f: Flow, e: Event, rid: Rid)
    requires Enabled(f, e) && rid in Step(f, e).calls && Step(f, e).calls[rid].phase.Replayed?
    ensures rid in f.calls && Step(f, e).calls[rid].key == f.calls[rid].key
    ensures var c := Step(f, e).calls[rid];
            f.calls[rid].phase == c.phase || (c.key in f.cache && f.cache[c.key].response == c.phase.response)
  {
    hide Handle, Apply;
  }

  /** Every replayed call is told the response, status and body, of a call with its key that took effect. */
  lemma {:induction false} RepliesHold(f: Flow, events: seq<Event>)
    requires RepliesOk(f) && IsFlow(f, events)
    ensures RepliesOk(After(f, events))
    decreases |events|
  {
    if events != [] {
      StepKeepsReplies(f, events[0]);
      hide Step, Enabled, RepliesOk;
      RepliesHold(Step(f, events[0]), events[1..]);
    }
  }

  /* ---- An input on which two run ---- */

  const ONE_WALLET := Db(map[0 := "a@example.com"], map["a@example.com" := 0],
                         map["WLT-A" := Wallet(0, 0)], map[0 := "WLT-A"], [], [])

  const TWICE := Flow(ONE_WALLET, map[], 0.0,
                      map[0 := InFlight("k", TopUp(0, 500.0), Waiting), 1 := InFlight("k", TopUp(0, 500.0), Waiting)])

  const BOTH_RUN := [Look(0, 0.0), Look(1, 0.0), Run(0, 0.0, 1, false), Run(1, 0.0, 2, false),
                     Save(0, 0.0), Save(1, 0.0)]

  /** The first of two equal top-ups, and then the second. */
  lemma TopUpsAddUp(db: Db)
    requires db == ONE_WALLET
    ensures var (db1, response) := Handle(db, Order(TopUp(0, 500.0), 1, ""), false);
            var (db2, _) := Handle(db1, Order(TopUp(0, 500.0), 2, ""), false);
            db2.wallets == map["WLT-A" := Wallet(0, 1000)]
  {
    assert Handle(db, Order(TopUp(0, 500.0), 1, ""), false).0.wallets == map["WLT-A" := Wallet(0, 500)];
  }

  /** Both look the key up, and both miss. */
  const BOTH_MISSED := Flow(ONE_WALLET, map[], 0.0,
                            map[0 := InFlight("k", TopUp(0, 500.0), Missed),
                                1 := InFlight("k", TopUp(0, 500.0), Missed)])

  lemma BothMiss(rest: seq<Event>)
    requires IsFlow(BOTH_MISSED, rest)
    ensures IsFlow(TWICE, [Look(0, 0.0)] + ([Look(1, 0.0)] + rest))
    ensures After(TWICE, [Look(0, 0.0)] + ([Look(1, 0.0)] + rest)) == After(BOTH_MISSED, rest)
  {
    var f1 := Step(TWICE, Look(0, 0.0));
    assert Step(f1, Look(1, 0.0)) == BOTH_MISSED;
    hide Step, Enabled;
    Prefixed(f1, Look(1, 0.0), rest);
    Prefixed(TWICE, Look(0, 0.0), [Look(1, 0.0)] + rest);
  }

  /** Both handlers run, one after the other, and both responses wait to be stored. */
  lemma BothHandlersRun() returns (f: Flow)
    ensures forall rest: seq<Event> :: IsFlow(f, rest) ==>
              && IsFlow(BOTH_MISSED, [Run(0, 0.0, 1, false)] + ([Run(1, 0.0, 2, false)] + rest))
              && After(BOTH_MISSED, [Run(0, 0.0, 1, false)] + ([Run(1, 0.0, 2, false)] + rest)) == After(f, rest)
    ensures f.db.wallets == map["WLT-A" := Wallet(0, 1000)] && f.now == 0.0
    ensures exists a, b ::
              f.calls == map[0 := InFlight("k", TopUp(0, 500.0), Ran(a)), 1 := InFlight("k", TopUp(0, 500.0), Ran(b))]
  {
    TopUpsAddUp(ONE_WALLET);
    hide Handle;
    var f1 := Step(BOTH_MISSED, Run(0, 0.0, 1, false));
    f := Step(f1, Run(1, 0.0, 2, false));
    var a, b := f.calls[0].phase.response, f.calls[1].phase.response;
    assert f.calls == map[0 := InFlight("k", TopUp(0, 500.0), Ran(a)), 1 := InFlight("k", TopUp(0, 500.0), Ran(b))];
    hide Step, Enabled;
    forall rest: seq<Event> | IsFlow(f, rest)
      ensures IsFlow(BOTH_MISSED, [Run(0, 0.0, 1, false)] + ([Run(1, 0.0, 2, false)] + rest))
      ensures After(BOTH_MISSED, [Run(0, 0.0, 1, false)] + ([Run(1, 0.0, 2, false)] + rest)) == After(f, rest)
    {
      Prefixed(f1, Run(1, 0.0, 2, false), rest);
      Prefixed(BOTH_MISSED, Run(0, 0.0, 1, false), [Run(1, 0.0, 2, false)] + rest);
    }
  }

  lemma BothSave(f: Flow, a: Response, b: Response) returns (end: Flow)
    requires f.calls == map[0 := InFlight("k", TopUp(0, 500.0), Ran(a)), 1 := InFlight("k", TopUp(0, 500.0), Ran(b))]
    requires f.now == 0.0
    ensures IsFlow(f, [Save(0, 0.0)] + [Save(1, 0.0)]) && After(f, [Save(0, 0.0)] + [Save(1, 0.0)]) == end
    ensures end.db == f.db && Runners(end, "k") == {0, 1}
  {
    var middle := Step(f, Save(0, 0.0));
    assert middle.db == f.db && middle.now == 0.0;
    assert middle.calls
        == map[0 := InFlight("k", TopUp(0, 500.0), Answered(a)), 1 := InFlight("k", TopUp(0, 500.0), Ran(b))];
    end := Step(middle, Save(1, 0.0));
    assert end.calls
        == map[0 := InFlight("k", TopUp(0, 500.0), Answered(a)), 1 := InFlight("k", TopUp(0, 500.0), Answered(b))];
    hide Step, Enabled;
    LastTwo(f, Save(0, 0.0), middle, Save(1, 0.0), end);
  }

  /**
   Overlap is not deduplicated: two calls with one key, both looked up before either is stored, both run.
   A top-up of 500 cents sent twice ends with 1000 cents in the wallet.
   */
  lemma OverlappingCallsRunTwice() returns (end: Flow)
    ensures Fresh(TWICE) && IsFlow(TWICE, BOTH_RUN) && After(TWICE, BOTH_RUN) == end
    ensures Runners(end, "k") == {0, 1} && end.db.wallets == map["WLT-A" := Wallet(0, 1000)]
  {
    hide Step, Enabled, Runners, IsFlow, After;
    var f4 := BothHandlersRun();
    var a, b :| f4.calls
        == map[0 := InFlight("k", TopUp(0, 500.0), Ran(a)), 1 := InFlight("k", TopUp(0, 500.0), Ran(b))];
    end := BothSave(f4, a, b);
    var saves := [Save(0, 0.0)] + [Save(1, 0.0)];
    var runs := [Run(0, 0.0, 1, false)] + ([Run(1, 0.0, 2, false)] + saves);
    BothMiss(runs);
    assert BOTH_RUN == [Look(0, 0.0)] + ([Look(1, 0.0)] + runs);
  }

  lemma LastTwo(f: Flow, a: Event, g: Flow, b: Event, h: Flow)
    requires Enabled(f, a) && Step(f, a) == g && Enabled(g, b) && Step(g, b) == h
    ensures IsFlow(f, [a] + [b]) && After(f, [a] + [b]) == h
  {
    hide Step, Enabled;
    Prefixed(g, b, []);
    assert [b] + [] == [b];
    Prefixed(f, a, [b]);
  }

  lemma Prefixed(f: Flow, e: Event, rest: seq<Event>)
    requires Enabled(f, e) && IsFlow(Step(f, e), rest)
    ensures IsFlow(f, [e] + rest) && After(f, [e] + rest) == After(Step(f, e), rest)
  {
    hide Step, Enabled;
    assert ([e] + rest)[1..] == rest;
  }
}
