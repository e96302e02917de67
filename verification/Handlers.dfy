/**
 The idempotency layer over the real protocol: the handler of a call is a session that runs statement by
 statement among all others. Seen from the layer it is one step, taken when the session ends, so every
 behaviour here is one of the overlapping calls and every bound proved there holds here.
 */
module Handlers {
  import opened Tables
  import opened Serial
  import opened Sessions
  import opened Serializability
  import opened Guarantees
  import opened EmailRace
  import opened Idempotency
  import Overlap

  /** The wallet protocol, the cache, the time, and the calls; the session of a call has the call's number. */
  datatype Server = Server(w: World, cache: Cache, now: real, calls: map<Sid, Overlap.InFlight>)

  datatype Event =
    | LookUp(rid: Sid, time: real)
    | Reject(rid: Sid, time: real)   // the body does not bind, so no session is started
    | Statement(a: Action)          // one statement of any session, of a call or not
    | Store(rid: Sid, time: real)

  predicate CanHappen(v: Server, e: Event) {
    match e
    case LookUp(rid, time) => v.now <= time && rid in v.calls && v.calls[rid].phase.Waiting? && v.calls[rid].key != ""
    case Reject(rid, time) => v.now <= time && rid in v.calls && v.calls[rid].phase.Missed? && !Binds(v.calls[rid].req)
    case Statement(a) =>
      Enabled(v.w, a) && (a.sid in v.calls ==> v.calls[a.sid].phase.Missed? && Binds(v.calls[a.sid].req))
    case Store(rid, time) => v.now <= time && rid in v.calls && v.calls[rid].phase.Ran?
  }

  /** What the handler sends when its session has ended. */
  function ResponseTo(outcome: Outcome): Response
    requires !outcome.Running?
  {
    match outcome
    case Committed(receipt) => Response(200, [ReceiptChunk(receipt)])
    case Failed(error) => Failure(error)
  }

  function Happened(v: Server, e: Event): Server
    requires CanHappen(v, e)
  {
    match e
    case LookUp(rid, time) =>
      var c := v.calls[rid];
      var phase := Overlap.PhaseAfter(Lookup(v.cache, c.key, time));
      v.(now := time, calls := v.calls[rid := c.(phase := phase)])
    case Reject(rid, time) => v.(now := time, calls := v.calls[rid := v.calls[rid].(phase := Overlap.Ran(UNBOUND))])
    case Statement(a) =>
      var w := Step(v.w, a);
      if a.sid in v.calls && a.sid in w.sessions && !w.sessions[a.sid].outcome.Running? then
        var response := ResponseTo(w.sessions[a.sid].outcome);
        v.(w := w, calls := v.calls[a.sid := v.calls[a.sid].(phase := Overlap.Ran(response))])
      else v.(w := w)
    case Store(rid, time) =>
      var c := v.calls[rid];
      var response := c.phase.response;
      var cache := if Success(response.status) then v.cache[c.key := Stored(response, time + DAY)] else v.cache;
      v.(now := time, cache := cache, calls := v.calls[rid := c.(phase := Overlap.Answered(response))])
  }

  ghost predicate IsHistory(v: Server, events: seq<Event>)
    decreases |events|
  {
    events == [] || (CanHappen(v, events[0]) && IsHistory(Happened(v, events[0]), events[1..]))
  }

  ghost function Finally(v: Server, events: seq<Event>): Server
    requires IsHistory(v, events)
    decreases |events|
  {
    if events == [] then v else Finally(Happened(v, events[0]), events[1..])
  }

  /** The layer's view: the committed tables, and of a handler only whether it has run. */
  function Seen(v: Server): Overlap.Flow {
    Overlap.Flow(v.w.db, v.cache, v.now, v.calls)
  }

  /** Each call is a payment with its own session, which runs until the handler has run. */
  ghost predicate ServerOk(v: Server) {
    && Inv(v.w)
    && forall rid :: rid in v.calls ==> CallOk(v.w, rid, v.calls[rid])
  }

  predicate CallOk(w: World, rid: Sid, c: Overlap.InFlight) {
    && rid in w.sessions && w.sessions[rid].req == c.req && !c.req.Register?
    && (c.phase.Waiting? || c.phase.Missed? ==> w.sessions[rid].outcome.Running?)
    && (c.phase.Ran? || c.phase.Answered? ==> IsResponseTo(w.sessions[rid].outcome, c))
  }

  /** A handler that has run sends what its session came to; it has none if the body does not bind. */
  predicate IsResponseTo(outcome: Outcome, c: Overlap.InFlight)
    requires c.phase.Ran? || c.phase.Answered?
  {
    if Binds(c.req) then !outcome.Running? && c.phase.response == ResponseTo(outcome) else c.phase.response == UNBOUND
  }

  /* ---- A session that ends is a handler that runs ---- */

  /** What one handler run of the layer amounts to, for a request, in a state of the tables. */
  predicate IsRunOf(db: Db, req: Request, id: nat, fault: bool, after: Db, response: Response) {
    Handle(db, Order(req, id, ""), fault) == (after, response)
  }

  /** The session of a call ends by its commit: the handler's run is the atomic request, at that moment. */
  lemma CommitIsRun(w: World, a: Action)
    requires Inv(w) && Enabled(w, a) && a.Advance? && w.sessions[a.sid].stage.Commit?
    requires !w.sessions[a.sid].req.Register? && Binds(w.sessions[a.sid].req)
    ensures var s' := Step(w, a).sessions[a.sid];
            && !s'.outcome.Running?
            && IsRunOf(w.db, s'.req, w.sessions[a.sid].id, false, Step(w, a).db, ResponseTo(s'.outcome))
  {
    var s := w.sessions[a.sid];
    CommitsSerially(w.db, s);
    hide Inv, Apply, Flush, ReceiptOf, Blocked;
  }

  /** It ends by an error: the handler's run is the refusal or the failure, and the tables are as they were. */
  lemma ErrorIsRun(w: World, a: Action)
    requires Inv(w) && Enabled(w, a) && Step(w, a).sessions[a.sid].outcome.Failed?
    requires !w.sessions[a.sid].req.Register? && Binds(w.sessions[a.sid].req)
    ensures var s' := Step(w, a).sessions[a.sid];
            IsRunOf(w.db, w.sessions[a.sid].req, 0, a.Fail?, Step(w, a).db, ResponseTo(s'.outcome))
  {
    OnlyCommitsEnd(w, a);
    OnlyCommitsWrite(w, a);
    if a.Advance? {
      RefusalsAreSerial(w, a, Order(w.sessions[a.sid].req, 0, ""));
      LostRaceIff(w, a);
      hide Inv, Apply, Enabled, Step;
    } else {
      hide Inv, Apply;
    }
  }

  lemma OnlyCommitsEnd(w: World, a: Action)
    requires Enabled(w, a) && Step(w, a).sessions[a.sid].outcome.Failed?
    ensures a.Fail? || !w.sessions[a.sid].stage.Commit?
  {
    hide Blocked, KeysAreFree, Move, Flush, ReceiptOf, Acquire;
  }

  /** The last statement of a call's session is the handler run. */
  lemma EndIsSeen(v: Server, a: Action) returns (e: Overlap.Event)
    requires ServerOk(v) && CanHappen(v, Statement(a)) && a.sid in v.calls
    requires !Step(v.w, a).sessions[a.sid].outcome.Running?
    ensures Overlap.Enabled(Seen(v), e) && Overlap.Step(Seen(v), e) == Seen(Happened(v, Statement(a)))
  {
    hide Step, Enabled, Inv, Handle, IsRunOf, Failure, ResponseTo;
    var s := v.w.sessions[a.sid];
    StepKeepsRequests(v.w, a);
    assert CallOk(v.w, a.sid, v.calls[a.sid]);
    var commits := a.Advance? && s.stage.Commit?;
    if commits {
      CommitIsRun(v.w, a);
    } else {
      EndsFailed(v.w, a);
      ErrorIsRun(v.w, a);
    }
    var id := if commits then s.id else 0;
    e := Overlap.Run(a.sid, v.now, id, a.Fail?);
    var w := Step(v.w, a);
    RunIsHandle(v.w.db, s.req, id, a.Fail?, w.db, ResponseTo(w.sessions[a.sid].outcome));
  }

  lemma RunIsHandle(db: Db, req: Request, id: nat, fault: bool, after: Db, response: Response)
    requires IsRunOf(db, req, id, fault, after, response)
    ensures Handle(db, Order(req, id, ""), fault) == (after, response)
  {
  }

  /** The commit of a request that is no call of the layer. */
  lemma OtherCommitIsSeen(v: Server, a: Action) returns (e: Overlap.Event)
    requires ServerOk(v) && CanHappen(v, Statement(a)) && a.sid !in v.calls
    requires a.Advance? && v.w.sessions[a.sid].stage.Commit?
    ensures Overlap.Enabled(Seen(v), e) && Overlap.Step(Seen(v), e) == Seen(Happened(v, Statement(a)))
  {
    e := Overlap.Other(OrderOf(v.w.sessions[a.sid]), v.now);
    hide Step, Enabled, Inv, Apply, OrderOf;
    CommitIsApplied(v.w, a);
  }

  /** Any other statement is not seen. */
  lemma StatementIsUnseen(v: Server, a: Action)
    requires CanHappen(v, Statement(a)) && (a.Fail? || !v.w.sessions[a.sid].stage.Commit?)
    requires var w := Step(v.w, a); a.sid in v.calls && a.sid in w.sessions ==> w.sessions[a.sid].outcome.Running?
    ensures Seen(Happened(v, Statement(a))) == Seen(v)
  {
    hide Step, Enabled;
    OnlyCommitsWrite(v.w, a);
  }

  lemma StatementIsSeen(v: Server, a: Action) returns (seen: seq<Overlap.Event>)
    requires ServerOk(v) && CanHappen(v, Statement(a))
    ensures Overlap.IsFlow(Seen(v), seen) && Overlap.After(Seen(v), seen) == Seen(Happened(v, Statement(a)))
  {
    assert Enabled(v.w, a) && a.sid in v.w.sessions;
    var s := v.w.sessions[a.sid];
    hide Step, Enabled, Inv, ServerOk, CanHappen, Happened, Seen;
    StepKeepsRequests(v.w, a);
    var ends := !Step(v.w, a).sessions[a.sid].outcome.Running?;
    if a.Advance? && s.stage.Commit? {
      CommitEnds(v.w, a);
    }
    if a.sid in v.calls && ends {
      var e := EndIsSeen(v, a);
      seen := OneEvent(v, e, Happened(v, Statement(a)));
    } else if a.Advance? && s.stage.Commit? {
      var e := OtherCommitIsSeen(v, a);
      seen := OneEvent(v, e, Happened(v, Statement(a)));
    } else {
      StatementIsUnseen(v, a);
      seen := [];
    }
  }

  lemma OneEvent(v: Server, e: Overlap.Event, v': Server) returns (seen: seq<Overlap.Event>)
    requires Overlap.Enabled(Seen(v), e) && Overlap.Step(Seen(v), e) == Seen(v')
    ensures seen == [e] && Overlap.IsFlow(Seen(v), seen) && Overlap.After(Seen(v), seen) == Seen(v')
  {
    seen := [e];
    hide Overlap.Enabled, Overlap.Step;
    Overlap.Prefixed(Seen(v), e, []);
    assert [e] + [] == [e];
  }

  lemma CommitIsApplied(w: World, a: Action)
    requires Inv(w) && Enabled(w, a) && a.Advance? && w.sessions[a.sid].stage.Commit?
    ensures Apply(w.db, OrderOf(w.sessions[a.sid])).Accepted?
    ensures Apply(w.db, OrderOf(w.sessions[a.sid])).db == Step(w, a).db
  {
    CommitsSerially(w.db, w.sessions[a.sid]);
    hide Inv, Apply, Flush, ReceiptOf, Blocked, OrderOf;
  }

  lemma CommitEnds(w: World, a: Action)
    requires Enabled(w, a) && a.Advance? && w.sessions[a.sid].stage.Commit?
    ensures Step(w, a).sessions[a.sid].outcome.Committed?
  {
    hide Blocked, Flush, ReceiptOf;
  }

  lemma EndsFailed(w: World, a: Action)
    requires Inv(w) && Enabled(w, a) && (a.Fail? || !w.sessions[a.sid].stage.Commit?)
    requires !Step(w, a).sessions[a.sid].outcome.Running?
    ensures Step(w, a).sessions[a.sid].outcome.Failed?
  {
    var s := w.sessions[a.sid];
    RunningFits(w, a.sid);
    hide Inv, Blocked, KeysAreFree;
    if Movable(s) && a.Advance? && Move(w.db, s, a.keys).Next? {
      MoveKeepsShape(w.db, s, a.keys);
    }
    hide Move;
  }

  lemma StatementKeepsOk(v: Server, a: Action)
    requires ServerOk(v) && CanHappen(v, Statement(a))
    ensures ServerOk(Happened(v, Statement(a)))
  {
    hide Step, Enabled, Inv, ResponseTo;
    var v' := Happened(v, Statement(a));
    StepKeepsInv(v.w, a);
    StepKeepsRequests(v.w, a);
    forall rid | rid in v'.calls ensures CallOk(v'.w, rid, v'.calls[rid]) {
      assert CallOk(v.w, rid, v.calls[rid]);
      if rid != a.sid {
        OthersStay(v.w, a, rid);
      }
    }
  }

  /** The layer's own steps are the same on both sides. */
  lemma LayerStepIsSeen(v: Server, e: Event) returns (ev: Overlap.Event)
    requires CanHappen(v, e) && !e.Statement?
    ensures Overlap.Enabled(Seen(v), ev) && Overlap.Step(Seen(v), ev) == Seen(Happened(v, e))
    ensures e.Store? ==> ev == Overlap.Save(e.rid, e.time)
  {
    hide Lookup, Apply;
    match e
    case LookUp(rid, time) => ev := Overlap.Look(rid, time);
    case Reject(rid, time) => ev := Overlap.Run(rid, time, 0, false);
    case Store(rid, time) => ev := Overlap.Save(rid, time);
  }

  lemma LayerStepKeepsOk(v: Server, e: Event)
    requires ServerOk(v) && CanHappen(v, e) && !e.Statement?
    ensures ServerOk(Happened(v, e))
  {
    hide Lookup, Inv;
  }

  /** Every event of the server is at most one step of the layer. */
  lemma EventIsSeen(v: Server, e: Event) returns (seen: seq<Overlap.Event>)
    requires ServerOk(v) && CanHappen(v, e)
    ensures ServerOk(Happened(v, e))
    ensures Overlap.IsFlow(Seen(v), seen) && Overlap.After(Seen(v), seen) == Seen(Happened(v, e))
  {
    hide CanHappen, ServerOk, Happened, Seen;
    if e.Statement? {
      StatementKeepsOk(v, e.a);
      seen := StatementIsSeen(v, e.a);
    } else {
      LayerStepKeepsOk(v, e);
      var ev := LayerStepIsSeen(v, e);
      seen := OneEvent(v, ev, Happened(v, e));
    }
  }

  /** Every history of the server, seen from the layer, is a run of overlapping calls. */
  lemma {:induction false} HistoryIsSeen(v: Server, events: seq<Event>) returns (seen: seq<Overlap.Event>)
    requires ServerOk(v) && IsHistory(v, events)
    ensures ServerOk(Finally(v, events))
    ensures Overlap.IsFlow(Seen(v), seen) && Overlap.After(Seen(v), seen) == Seen(Finally(v, events))
    decreases |events|
  {
    if events == [] {
      seen := [];
    } else {
      var one := EventIsSeen(v, events[0]);
      hide ServerOk, Seen, Happened, CanHappen;
      var rest := HistoryIsSeen(Happened(v, events[0]), events[1..]);
      Overlap.Joined(Seen(v), one, rest);
      seen := one + rest;
    }
  }

  /**
   The bound of the layer, for handlers that run statement by statement. From a state in which a response for
   `key` is stored, and as long as it lives, the calls with this key that have run their handler are among
   those that had missed their lookup by then.
   */
  lemma ServerRunsAreBounded(v: Server, first: seq<Event>, rest: seq<Event>, key: Key)
    requires ServerOk(v) && Overlap.Fresh(Seen(v)) && IsHistory(v, first) && IsHistory(Finally(v, first), rest)
    requires key in Finally(v, first).cache
    requires Finally(Finally(v, first), rest).now < Finally(v, first).cache[key].expires
    ensures Overlap.Runners(Seen(Finally(Finally(v, first), rest)), key)
            <= Overlap.Missers(Seen(Finally(v, first)), key)
  {
    var before := HistoryIsSeen(v, first);
    var after := HistoryIsSeen(Finally(v, first), rest);
    Overlap.TimesArePast(Seen(Finally(v, first)), after);
    Overlap.HandlerRunsAreBounded(Seen(v), before, after, key);
  }

  /** A call's response is stored: seen from the layer, the same store. */
  lemma StoreIsSeen(v: Server, e: Event, key: Key) returns (ev: Overlap.Event)
    requires ServerOk(v) && CanHappen(v, e) && key !in v.cache && key in Happened(v, e).cache
    ensures ServerOk(Happened(v, e)) && e.Store? && ev == Overlap.Save(e.rid, e.time)
    ensures Overlap.Enabled(Seen(v), ev) && Overlap.Step(Seen(v), ev) == Seen(Happened(v, e))
  {
    assert e.Store?;
    LayerStepKeepsOk(v, e);
    ev := LayerStepIsSeen(v, e);
  }

  /**
   The exact bound, for handlers that run statement by statement. `store` is the first store for `key`, and
   the history goes on within the lifetime of that response. Calls that have taken effect, the stored one
   among them, had all looked the key up before that store; and once all calls are answered, the handler has
   run for exactly the calls that had.
   */
  lemma ServerOneRunIff(v: Server, first: seq<Event>, store: Event, rest: seq<Event>, key: Key)
    requires ServerOk(v) && Overlap.Fresh(Seen(v)) && IsHistory(v, first) && key !in Finally(v, first).cache
    requires CanHappen(Finally(v, first), store) && key in Happened(Finally(v, first), store).cache
    requires IsHistory(Happened(Finally(v, first), store), rest)
    requires Finally(Happened(Finally(v, first), store), rest).now < store.time + 86_400.0
    ensures var before := Seen(Finally(v, first)); var end := Seen(Finally(Happened(Finally(v, first), store), rest));
            && store.Store? && store.rid in Overlap.Effects(end, key)
            && Overlap.Effects(end, key) <= Overlap.Lookers(before, key)
            && (Overlap.AllAnswered(end, key) ==> Overlap.Runners(end, key) == Overlap.Lookers(before, key))
  {
    hide ServerOk, Happened, CanHappen, Overlap.Effects, Overlap.Lookers, Overlap.Runners, Overlap.AllAnswered;
    var early := HistoryIsSeen(v, first);
    var before := Finally(v, first);
    var ev := StoreIsSeen(before, store, key);
    var stored := Happened(before, store);
    var late := HistoryIsSeen(stored, rest);
    Overlap.TimesArePast(Seen(stored), late);
    Overlap.EffectsWereLookedUp(Seen(v), early, ev, late, key);
    if Overlap.AllAnswered(Seen(Finally(stored, rest)), key) {
      Overlap.OneRunIff(Seen(v), early, ev, late, key);
    }
  }

  /* ---- What a replayed call is told ---- */

  /** The response tells the receipt that this call's own session got when it committed. */
  ghost predicate TellsReceipt(v: Server, rid: Sid, response: Response) {
    exists t :: t in v.w.log && t.sid == rid && response == Response(200, [ReceiptChunk(t.receipt)])
  }

  lemma AnswerTellsReceipt(v: Server, rid: Sid)
    requires ServerOk(v) && rid in v.calls && v.calls[rid].phase.Answered?
    requires Success(v.calls[rid].phase.response.status)
    ensures TellsReceipt(v, rid, v.calls[rid].phase.response)
  {
    assert CallOk(v.w, rid, v.calls[rid]);
    assert v.w.sessions[rid].outcome.Committed?;
    hide SessionOk, LocksOk, ClaimsOk, Replay, ServerOk, CallOk;
    var t :| t in v.w.log && t.sid == rid;
    assert Recorded(v.w, t);
  }

  /**
   A replayed call is told the receipt of a call with its key whose session has committed, with status 200:
   the same bytes that call was answered with.
   */
  lemma RepliesAreReceipts(v: Server, events: seq<Event>, rid: Sid)
    requires ServerOk(v) && Overlap.Fresh(Seen(v)) && IsHistory(v, events)
    requires rid in Finally(v, events).calls && Finally(v, events).calls[rid].phase.Replayed?
    ensures var end := Finally(v, events); var response := end.calls[rid].phase.response;
            exists other :: other in end.calls && end.calls[other].key == end.calls[rid].key
                            && end.calls[other].phase == Overlap.Answered(response)
                            && TellsReceipt(end, other, response)
  {
    var end := Finally(v, events);
    var seen := HistoryIsSeen(v, events);
    Overlap.RepliesHold(Seen(v), seen);
    hide ServerOk, IsHistory, Finally, TellsReceipt;
    var c := end.calls[rid];
    assert Overlap.IsAnswerOf(Seen(end), c.key, c.phase.response);
    var other :| other in end.calls && end.calls[other].key == c.key
                 && end.calls[other].phase == Overlap.Answered(c.phase.response);
    AnswerTellsReceipt(end, other);
  }
}
