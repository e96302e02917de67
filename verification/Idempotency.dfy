/**
 The idempotency layer: look the key up, run the handler on a miss, store a successful response for a
 day. One request at a time it removes repeated requests exactly; overlapping requests can still run twice.
 */
module Idempotency {
  import opened Wrappers
  import opened Tables
  import opened Serial
  import opened Answers

  /** The lifetime of a stored response, in seconds. */
  const DAY := 86_400.0

  type Key = string

  /** What a response body is made of. */
  datatype Chunk = ReceiptChunk(receipt: Receipt) | ErrorChunk(status: int, error: Option<Error>)
  type Body = seq<Chunk>

  datatype Response = Response(status: int, body: Body)

  /** A stored response, gone from `expires` on. */
  datatype Stored = Stored(response: Response, expires: real)

  /**
   A POST with its header, the time it is looked up, and the time its response is stored; `fault` if the
   service fails on the way, at whichever statement.
   */
  datatype Call = Call(key: Key, order: Order, fault: bool, at: real, done: real)

  /* ---- The handler behind the layer ---- */

  predicate Success(status: int) {
    200 <= status < 300
  }

  /** transaction_handler.go and auth_handler.go: the status for each error of the service. */
  function StatusOf(error: Error): int {
    match error
    case SelfTransfer => 422
    case InsufficientBalance => 400
    case WalletNotFound | TargetWalletNotFound => 404
    case EmailConflict => 409
    case _ => 500
  }

  /** Binding refuses an amount that is not positive before the service is asked. */
  predicate Binds(req: Request) {
    req.Register? || req.amount > 0.0
  }

  const UNBOUND := Response(400, [ErrorChunk(400, None)])

  function Failure(error: Error): Response {
    Response(StatusOf(error), [ErrorChunk(StatusOf(error), Some(error))])
  }

  /** The handler, run alone: the request's serial effect and its response, or a failure on the way. */
  function Handle(db: Db, order: Order, fault: bool): (Db, Response) {
    if !Binds(order.req) then (db, UNBOUND)
    else if fault then (db, Failure(Unavailable))
    else
      match Apply(db, order)
      case Accepted(after, receipt) =>
        (after, Response(if order.req.Register? then 201 else 200, [ReceiptChunk(receipt)]))
      case Refused(error) => (db, Failure(error))
  }

  /* ---- The layer, one request at a time ---- */

  type Cache = map<Key, Stored>

  function Lookup(cache: Cache, key: Key, now: real): Option<Response> {
    if key in cache && now < cache[key].expires then Some(cache[key].response) else None
  }

  datatype Site = Site(db: Db, cache: Cache)

  const MISSING_KEY := UNBOUND

  function Serve(site: Site, call: Call): (Site, Response) {
    if call.key == "" then (site, MISSING_KEY) else
    match Lookup(site.cache, call.key, call.at)
    case Some(response) => (site, response)
    case None =>
      var (db, response) := Handle(site.db, call.order, call.fault);
      if Success(response.status)
      then (Site(db, site.cache[call.key := Stored(response, call.done + DAY)]), response)
      else (Site(db, site.cache), response)
  }

  function SiteAfter(db: Db, calls: seq<Call>): Site
    decreases |calls|
  {
    if calls == [] then Site(db, map[]) else
    Serve(SiteAfter(db, calls[..|calls| - 1]), calls[|calls| - 1]).0
  }

  function Answer(db: Db, calls: seq<Call>, i: nat): Response
    requires i < |calls|
  {
    Serve(SiteAfter(db, calls[..i]), calls[i]).1
  }

  /** Calls do not overlap: each is looked up after the one before it was stored. */
  predicate Sequential(calls: seq<Call>) {
    && (forall i :: 0 <= i < |calls| ==> calls[i].at <= calls[i].done)
    && (forall i, j :: 0 <= i < j < |calls| ==> calls[i].done <= calls[j].at)
  }

  /* ---- The reference: no cache, only which calls repeat an earlier one ---- */

  /** Call `i` repeats call `j`: the same key, within 24 hours of the success of `j`. */
  predicate Repeats(db: Db, calls: seq<Call>, j: nat, i: nat)
    requires j < i < |calls|
    decreases i, 0
  {
    calls[j].key == calls[i].key && calls[i].at < calls[j].done + 86_400.0 && Succeeds(db, calls, j)
  }

  /** Call `i` runs the handler: it has a key and repeats no earlier call. */
  predicate Runs(db: Db, calls: seq<Call>, i: nat)
    requires i < |calls|
    decreases i, 1
  {
    calls[i].key != "" && forall j :: 0 <= j < i ==> !Repeats(db, calls, j, i)
  }

  /** The tables before call `i`: the handler has run for the calls that run it, and for no others. */
  function Before(db: Db, calls: seq<Call>, i: nat): Db
    requires i <= |calls|
    decreases i, 0
  {
    if i == 0 then db
    else if Runs(db, calls, i - 1) then Handle(Before(db, calls, i - 1), calls[i - 1].order, calls[i - 1].fault).0
    else Before(db, calls, i - 1)
  }

  predicate Succeeds(db: Db, calls: seq<Call>, i: nat)
    requires i < |calls|
    decreases i, 2
  {
    Runs(db, calls, i) && Success(Handle(Before(db, calls, i), calls[i].order, calls[i].fault).1.status)
  }

  /* ---- What the handler answers ---- */

  /** The error in a response is the reason there is: none if the body does not bind. */
  ghost predicate IsReason(db: Db, order: Order, fault: bool, error: Option<Error>) {
    match error
    case None => !order.req.Register? && order.req.amount <= 0.0
    case Some(e) =>
      && (order.req.Register? || order.req.amount > 0.0)
      && if fault then e == Unavailable
         else Fails(db, order.req, e) || (e == DuplicateKey && Servable(db, order.req) && KeyIsTaken(db, order))
  }

  /** The response to a request that binds and does not fail on the way, by the tables. */
  lemma StatusIff(db: Db, order: Order)
    requires Consistent(db) && (order.req.Register? || order.req.amount > 0.0)
    ensures var status := Handle(db, order, false).1.status;
            && (status == (if order.req.Register? then 201 else 200)
                <==> Servable(db, order.req) && !KeyIsTaken(db, order))
            && (status == 400 <==> Fails(db, order.req, InsufficientBalance))
            && (status == 404 <==> Fails(db, order.req, WalletNotFound) || Fails(db, order.req, TargetWalletNotFound))
            && (status == 409 <==> Fails(db, order.req, EmailConflict))
            && (status == 422 <==> Fails(db, order.req, SelfTransfer))
            && (status == 500
                <==> Fails(db, order.req, Rejected) || (Servable(db, order.req) && KeyIsTaken(db, order)))
            && status in {200, 201, 400, 404, 409, 422, 500}
  {
    AnswerIff(db, order);
    FailsOnlySo(db, order.req);
    hide Apply, Fails, Servable, KeyIsTaken, Consistent;
  }

  /** These are the reasons there are. */
  lemma FailsOnlySo(db: Db, req: Request)
    ensures forall error :: Fails(db, req, error) ==>
              || error in {WalletNotFound, SelfTransfer, TargetWalletNotFound, InsufficientBalance}
              || error in {EmailConflict, Rejected}
  {
  }

  /** A body that does not bind is answered by 400, a failure on the way by 500, and an error tells its reason. */
  lemma ErrorIsTold(db: Db, order: Order, fault: bool)
    requires Consistent(db)
    ensures var response := Handle(db, order, fault).1;
            && (!order.req.Register? && order.req.amount <= 0.0 ==> response.status == 400)
            && ((order.req.Register? || order.req.amount > 0.0) && fault ==> response.status == 500)
            && (!Success(response.status) ==>
                  exists error :: IsReason(db, order, fault, error)
                                  && response.body == [ErrorChunk(response.status, error)])
  {
    AnswerIff(db, order);
    var response := Handle(db, order, fault).1;
    hide Apply, Fails, Servable, KeyIsTaken, Consistent;
    if !Success(response.status) {
      var error := response.body[0].error;
      assert IsReason(db, order, fault, error);
    }
  }

  /* ---- The layer refines the reference ---- */

  /** A response is stored exactly for the requests that took effect; any other left the tables alone. */
  lemma SuccessMeansEffect(db: Db, order: Order, fault: bool)
    ensures var (after, response) := Handle(db, order, fault);
            && (Success(response.status) <==> Binds(order.req) && !fault && Apply(db, order).Accepted?)
            && (Success(response.status) ==>
                  after == Apply(db, order).db && response.body == [ReceiptChunk(Apply(db, order).receipt)])
            && (!Success(response.status) ==> after == db)
  {
    hide Apply;
  }

  /** What the cache holds after `n` calls: for each key its last success, and only successes. */
  ghost predicate CacheIs(db: Db, calls: seq<Call>, n: nat, cache: Cache)
    requires n <= |calls|
  {
    && (forall j :: 0 <= j < n && Succeeds(db, calls, j) ==>
          calls[j].key in cache && cache[calls[j].key].expires >= calls[j].done + DAY)
    && (forall key :: key in cache ==>
        exists j :: 0 <= j < n && StoredBy(db, calls, j, cache[key]) && calls[j].key == key)
  }

  ghost predicate StoredBy(db: Db, calls: seq<Call>, j: nat, stored: Stored)
    requires j < |calls|
  {
    && Succeeds(db, calls, j)
    && stored == Stored(Handle(Before(db, calls, j), calls[j].order, calls[j].fault).1, calls[j].done + DAY)
  }

  /** A lookup finds a response exactly when the call repeats an earlier one. */
  lemma LookupFindsRepeats(db: Db, calls: seq<Call>, i: nat, cache: Cache)
    requires i < |calls| && calls[i].key != "" && CacheIs(db, calls, i, cache)
    ensures Lookup(cache, calls[i].key, calls[i].at).None? <==> Runs(db, calls, i)
    ensures Lookup(cache, calls[i].key, calls[i].at).Some? ==>
              exists j :: 0 <= j < i && Repeats(db, calls, j, i)
                          && Lookup(cache, calls[i].key, calls[i].at).value
                              == Handle(Before(db, calls, j), calls[j].order, calls[j].fault).1
  {
    hide Succeeds, Handle, Before;
    var key := calls[i].key;
    if Lookup(cache, key, calls[i].at).Some? {
      var j :| 0 <= j < i && StoredBy(db, calls, j, cache[key]) && calls[j].key == key;
      assert Repeats(db, calls, j, i);
    }
  }

  lemma {:induction false} CacheHolds(db: Db, calls: seq<Call>, n: nat)
    requires Sequential(calls) && n <= |calls|
    ensures CacheIs(db, calls, n, SiteAfter(db, calls[..n]).cache)
    ensures SiteAfter(db, calls[..n]).db == Before(db, calls, n)
  {
    if n > 0 {
      CacheHolds(db, calls, n - 1);
      var call := calls[n - 1];
      var site := SiteAfter(db, calls[..n - 1]);
      assert calls[..n][..n - 1] == calls[..n - 1];
      if call.key != "" {
        LookupFindsRepeats(db, calls, n - 1, site.cache);
      }
      CacheStepHolds(db, calls, n, site);
    }
  }

  lemma CacheKept(db: Db, calls: seq<Call>, n: nat, cache: Cache)
    requires 0 < n <= |calls| && CacheIs(db, calls, n - 1, cache) && !Succeeds(db, calls, n - 1)
    ensures CacheIs(db, calls, n, cache)
  {
    hide Handle, Before, Runs, Succeeds;
    forall key | key in cache
      ensures exists j :: 0 <= j < n && StoredBy(db, calls, j, cache[key]) && calls[j].key == key
    {
      var j :| 0 <= j < n - 1 && StoredBy(db, calls, j, cache[key]) && calls[j].key == key;
    }
  }

  lemma CacheStored(db: Db, calls: seq<Call>, n: nat, cache: Cache, stored: Stored)
    requires Sequential(calls) && 0 < n <= |calls|
    requires CacheIs(db, calls, n - 1, cache) && StoredBy(db, calls, n - 1, stored)
    ensures CacheIs(db, calls, n, cache[calls[n - 1].key := stored])
  {
    hide Handle, Before, Runs, Succeeds;
    var cache' := cache[calls[n - 1].key := stored];
    forall key | key in cache'
      ensures exists j :: 0 <= j < n && StoredBy(db, calls, j, cache'[key]) && calls[j].key == key
    {
      if key == calls[n - 1].key {
        assert StoredBy(db, calls, n - 1, cache'[key]);
      } else {
        var j :| 0 <= j < n - 1 && StoredBy(db, calls, j, cache[key]) && calls[j].key == key;
      }
    }
  }

  lemma CacheStepHolds(db: Db, calls: seq<Call>, n: nat, site: Site)
    requires Sequential(calls) && 0 < n <= |calls|
    requires CacheIs(db, calls, n - 1, site.cache) && site.db == Before(db, calls, n - 1)
    requires calls[n - 1].key != "" ==>
               (Lookup(site.cache, calls[n - 1].key, calls[n - 1].at).None? <==> Runs(db, calls, n - 1))
    ensures CacheIs(db, calls, n, Serve(site, calls[n - 1]).0.cache)
    ensures Serve(site, calls[n - 1]).0.db == Before(db, calls, n)
  {
    hide Handle, Lookup, CacheIs;
    var call := calls[n - 1];
    if Runs(db, calls, n - 1) && Success(Handle(site.db, call.order, call.fault).1.status) {
      var stored := Stored(Handle(site.db, call.order, call.fault).1, call.done + DAY);
      assert StoredBy(db, calls, n - 1, stored);
      CacheStored(db, calls, n, site.cache, stored);
    } else {
      CacheKept(db, calls, n, site.cache);
    }
  }

  /**
   Sequential deduplication. Whatever the calls, the tables end as if only the calls that repeat no earlier
   success had been made; each of these gets its own response, and each repeat gets the very response,
   status and body, of a success it repeats.
   */
  lemma SequentialCallsAreDeduplicated(db: Db, calls: seq<Call>)
    requires Sequential(calls)
    ensures SiteAfter(db, calls).db == Before(db, calls, |calls|)
    ensures forall i :: 0 <= i < |calls| && Runs(db, calls, i) ==>
              Answer(db, calls, i) == Handle(Before(db, calls, i), calls[i].order, calls[i].fault).1
    ensures forall i :: 0 <= i < |calls| && !Runs(db, calls, i) && calls[i].key != "" ==>
              exists j :: 0 <= j < i && Repeats(db, calls, j, i)
                          && Answer(db, calls, i) == Handle(Before(db, calls, j), calls[j].order, calls[j].fault).1
    ensures forall i :: 0 <= i < |calls| && calls[i].key == "" ==>
              !Runs(db, calls, i) && Answer(db, calls, i) == Response(400, [ErrorChunk(400, None)])
  {
    assert calls[..|calls|] == calls;
    CacheHolds(db, calls, |calls|);
    forall i | 0 <= i < |calls| && Runs(db, calls, i)
      ensures Answer(db, calls, i) == Handle(Before(db, calls, i), calls[i].order, calls[i].fault).1
    {
      CacheHolds(db, calls, i);
      LookupFindsRepeats(db, calls, i, SiteAfter(db, calls[..i]).cache);
    }
    forall i | 0 <= i < |calls| && !Runs(db, calls, i) && calls[i].key != ""
      ensures exists j :: 0 <= j < i && Repeats(db, calls, j, i)
                          && Answer(db, calls, i) == Handle(Before(db, calls, j), calls[j].order, calls[j].fault).1
    {
      CacheHolds(db, calls, i);
      LookupFindsRepeats(db, calls, i, SiteAfter(db, calls[..i]).cache);
    }
  }

  /** Two successes with one key are at least 24 hours apart: money moves at most once in that time for a key. */
  lemma OneSuccessPerDay(db: Db, calls: seq<Call>, i: nat, j: nat)
    requires i < j < |calls| && calls[i].key == calls[j].key
    requires Succeeds(db, calls, i) && Succeeds(db, calls, j)
    ensures calls[j].at >= calls[i].done + 86_400.0
  {
    assert !Repeats(db, calls, i, j);
  }

  /**
   For 24 hours after a success has been stored, every call with its key gets the very response of that
   success and leaves the tables alone.
   */
  lemma ReplayedForADay(db: Db, calls: seq<Call>, j: nat, i: nat)
    requires Sequential(calls) && j < i < |calls| && calls[j].key == calls[i].key && Succeeds(db, calls, j)
    requires calls[i].at < calls[j].done + 86_400.0
    ensures !Runs(db, calls, i) && Answer(db, calls, i) == Answer(db, calls, j)
    ensures SiteAfter(db, calls[..i + 1]).db == SiteAfter(db, calls[..i]).db
  {
    hide Answer, Handle, Runs, Repeats, Succeeds, SiteAfter, Before, Sequential;
    RepeatDoesNotRun(db, calls, j, i);
    RepeatIsAnswered(db, calls, j, i);
    TablesAre(db, calls, i);
    TablesAre(db, calls, i + 1);
  }

  lemma TablesAre(db: Db, calls: seq<Call>, n: nat)
    requires Sequential(calls) && n <= |calls|
    ensures SiteAfter(db, calls[..n]).db == Before(db, calls, n)
  {
    hide SiteAfter, CacheIs, Before, Sequential;
    CacheHolds(db, calls, n);
  }

  lemma RepeatIsAnswered(db: Db, calls: seq<Call>, j: nat, i: nat)
    requires Sequential(calls) && j < i < |calls| && calls[i].key != "" && Repeats(db, calls, j, i)
    requires Runs(db, calls, j) && !Runs(db, calls, i)
    ensures Answer(db, calls, i) == Answer(db, calls, j)
  {
    hide Answer, Handle, Runs, Repeats, Succeeds, Before, Sequential;
    SequentialCallsAreDeduplicated(db, calls);
    var k :| 0 <= k < i && Repeats(db, calls, k, i)
             && Answer(db, calls, i) == Handle(Before(db, calls, k), calls[k].order, calls[k].fault).1;
    RepeatsOnlyOne(db, calls, j, k, i);
  }

  lemma RepeatDoesNotRun(db: Db, calls: seq<Call>, j: nat, i: nat)
    requires j < i < |calls| && calls[j].key == calls[i].key && Succeeds(db, calls, j)
    requires calls[i].at < calls[j].done + 86_400.0
    ensures calls[i].key != "" && Repeats(db, calls, j, i)
    ensures Runs(db, calls, j) && !Runs(db, calls, i) && Before(db, calls, i + 1) == Before(db, calls, i)
  {
    hide Handle;
    assert Repeats(db, calls, j, i);
  }

  /**
   A call runs the handler, on the tables as they are and with its own response, exactly when 24 hours have
   passed since every earlier success with its key was stored.
   */
  lemma RunsAfterADay(db: Db, calls: seq<Call>, i: nat)
    requires Sequential(calls) && i < |calls| && calls[i].key != ""
    ensures Runs(db, calls, i) <==>
              forall j :: 0 <= j < i && Succeeds(db, calls, j) && calls[j].key == calls[i].key ==>
                calls[i].at >= calls[j].done + 86_400.0
    ensures Runs(db, calls, i) ==>
              (SiteAfter(db, calls[..i + 1]).db, Answer(db, calls, i))
              == Handle(SiteAfter(db, calls[..i]).db, calls[i].order, calls[i].fault)
  {
    SequentialCallsAreDeduplicated(db, calls);
    CacheHolds(db, calls, i);
    CacheHolds(db, calls, i + 1);
    hide Answer, Handle, Succeeds, SiteAfter;
    forall j | 0 <= j < i
      ensures Repeats(db, calls, j, i)
              <==> Succeeds(db, calls, j) && calls[j].key == calls[i].key && calls[i].at < calls[j].done + 86_400.0
    {
    }
  }

  /** A call repeats at most one success, so the response it gets is determined. */
  lemma RepeatsOnlyOne(db: Db, calls: seq<Call>, j: nat, k: nat, i: nat)
    requires Sequential(calls) && j < i < |calls| && k < i
    requires Repeats(db, calls, j, i) && Repeats(db, calls, k, i)
    ensures j == k
  {
    if j < k {
      OneSuccessPerDay(db, calls, j, k);
    } else if k < j {
      OneSuccessPerDay(db, calls, k, j);
    }
  }

  /**
   A call that was refused or failed on the way leaves no trace, so the next one with its key is served as
   if it were the first.
   */
  lemma FailedCallIsForgotten(site: Site, call: Call, retry: Call)
    requires !Success(Serve(site, call).1.status)
    ensures Serve(Serve(site, call).0, retry) == Serve(site, retry)
  {
    if call.key != "" && Lookup(site.cache, call.key, call.at).None? {
      SuccessMeansEffect(site.db, call.order, call.fault);
    }
  }

  /* ---- idempotency_middleware.go, as it is written ---- */

  class ResponseWriter {
    var status: int
    var body: Body

    constructor ()
      ensures status == 200 && body == []
    {
      status := 200;
      body := [];
    }
  }

  /** The wrapper that keeps a copy of everything the handler sends. */
  class ResponseCapture {
    const inner: ResponseWriter
    var body: Body
    var statusCode: int

    ghost predicate Faithful()
      reads this, inner
    {
      body == inner.body && statusCode == inner.status
    }

    constructor (inner: ResponseWriter)
      requires inner.status == 200 && inner.body == []
      ensures this.inner == inner && body == [] && statusCode == 200 && Faithful()
    {
      this.inner := inner;
      body := [];
      statusCode := 200;
    }

    method Write(b: Body)
      requires Faithful()
      modifies this, inner
      ensures Faithful() && inner.body == old(inner.body) + b && inner.status == old(inner.status)
    {
      body := body + b;
      inner.body := inner.body + b;
    }

    method WriteHeader(code: int)
      requires Faithful()
      modifies this, inner
      ensures Faithful() && inner.status == code && inner.body == old(inner.body)
    {
      statusCode := code;
      inner.status := code;
    }
  }

  class Redis {
    var entries: Cache

    constructor ()
      ensures entries == map[]
    {
      entries := map[];
    }

    method Get(key: Key, now: real) returns (r: Option<Response>)
      ensures r == Lookup(entries, key, now)
    {
      if key in entries && now < entries[key].expires {
        r := Some(entries[key].response);
      } else {
        r := None;
      }
    }

    method Set(key: Key, response: Response, expires: real)
      modifies this
      ensures entries == old(entries)[key := Stored(response, expires)]
    {
      entries := entries[key := Stored(response, expires)];
    }
  }

  class Store {
    var db: Db

    constructor ()
      ensures db == EMPTY
    {
      db := EMPTY;
    }
  }

  /** The handler writes its status, then its body. */
  method RunHandler(store: Store, order: Order, fault: bool, w: ResponseCapture)
    requires w.Faithful() && w.inner.body == []
    modifies store, w, w.inner
    ensures w.Faithful()
    ensures (store.db, Response(w.inner.status, w.inner.body)) == Handle(old(store.db), order, fault)
  {
    var (db, response) := Handle(store.db, order, fault);
    store.db := db;
    w.WriteHeader(response.status);
    w.Write(response.body);
    assert [] + response.body == response.body;
  }

  /** The middleware on a POST: what reaches the client and what is stored are what Serve says. */
  method Middleware(redis: Redis, store: Store, call: Call, w: ResponseWriter)
    requires w.status == 200 && w.body == []
    modifies redis, store, w
    ensures var (site, response) := Serve(Site(old(store.db), old(redis.entries)), call);
            site == Site(store.db, redis.entries) && response == Response(w.status, w.body)
    ensures call.key == "" ==> w.status == 400 && store.db == old(store.db) && redis.entries == old(redis.entries)
    ensures var hit := old(call.key != "" && call.key in redis.entries && call.at < redis.entries[call.key].expires);
            && (hit ==> Response(w.status, w.body) == old(redis.entries)[call.key].response
                        && store.db == old(store.db) && redis.entries == old(redis.entries))
            && (call.key != "" && !hit ==>
                  && (store.db, Response(w.status, w.body)) == Handle(old(store.db), call.order, call.fault)
                  && redis.entries
                      == if 200 <= w.status < 300
                         then old(redis.entries)[call.key := Stored(Response(w.status, w.body), call.done + 86_400.0)]
                         else old(redis.entries))
  {
    if call.key == "" {
      w.status := 400;
      w.body := w.body + MISSING_KEY.body;
      return;
    }
    var cached := redis.Get(call.key, call.at);
    if cached.Some? {
      w.status := cached.value.status;
      w.body := w.body + cached.value.body;
      return;
    }
    var capture := new ResponseCapture(w);
    RunHandler(store, call.order, call.fault, capture);
    if capture.statusCode >= 200 && capture.statusCode < 300 {
      redis.Set(call.key, Response(capture.statusCode, capture.body), call.done + DAY);
    }
  }
}
