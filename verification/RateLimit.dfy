/**
 The rate limiter: a counter per client address that expires one window after the request that created
 it. It is a fixed-window counter, so an interval of one window length can admit more than the limit,
 but never as much as twice the limit. Times are real numbers of seconds; the window may be any number,
 of which the code uses whole ones.
 */
module RateLimit {
  import opened Numbers
  import opened Wrappers

  type Ip = string

  /** The Redis key of one address: its count, and when it expires. */
  datatype Counter = Counter(count: nat, expires: real)

  datatype Arrival = Arrival(ip: Ip, time: real)

  /** The script: INCR, and EXPIRE when the count is one. An expired key is an absent key. */
  function Increment(c: Option<Counter>, now: real, window: real): Counter {
    match c
    case None => Counter(1, now + window)
    case Some(k) => if now < k.expires then Counter(k.count + 1, k.expires) else Counter(1, now + window)
  }

  function CounterAfter(times: seq<real>, window: real): Option<Counter>
    decreases |times|
  {
    if times == [] then None else
    Some(Increment(CounterAfter(times[..|times| - 1], window), times[|times| - 1], window))
  }

  /* ---- Windows, without a counter ---- */

  /** The request that opened the window in which request `i` falls. */
  function Opener(times: seq<real>, i: nat, window: real): (o: nat)
    requires i < |times|
    ensures o <= i
  {
    if i == 0 then 0 else
    var o := Opener(times, i - 1, window);
    if times[i] < times[o] + window then o else i
  }

  predicate Admitted(times: seq<real>, i: nat, max: nat, window: real)
    requires i < |times|
  {
    i - Opener(times, i, window) < max
  }

  function AdmittedIn(times: seq<real>, lo: nat, hi: nat, max: nat, window: real): nat
    requires lo <= hi <= |times|
  {
    if lo == hi then 0 else
    AdmittedIn(times, lo, hi - 1, max, window) + if Admitted(times, hi - 1, max, window) then 1 else 0
  }

  predicate Ordered(times: seq<real>) {
    forall i, j :: 0 <= i <= j < |times| ==> times[i] <= times[j]
  }

  lemma {:induction false} OpenerOfPrefix(times: seq<real>, n: nat, i: nat, window: real)
    requires i < n <= |times|
    ensures Opener(times[..n], i, window) == Opener(times, i, window)
  {
    if i > 0 {
      OpenerOfPrefix(times, n, i - 1, window);
    }
  }

  /** The counter is the position within the window, and expires with it: blocked requests extend nothing. */
  lemma {:induction false} CounterMatches(times: seq<real>, window: real)
    requires times != []
    ensures var i := |times| - 1; var o := Opener(times, i, window);
            CounterAfter(times, window) == Some(Counter(i - o + 1, times[o] + window))
    decreases |times|
  {
    var i := |times| - 1;
    if i > 0 {
      CounterMatches(times[..i], window);
      OpenerOfPrefix(times, i, i - 1, window);
    }
  }

  /* ---- The middleware ---- */

  function TimesOf(arrivals: seq<Arrival>, ip: Ip): seq<real>
    decreases |arrivals|
  {
    if arrivals == [] then [] else
    var init, last := arrivals[..|arrivals| - 1], arrivals[|arrivals| - 1];
    TimesOf(init, ip) + if last.ip == ip then [last.time] else []
  }

  class Limiter {
    const max: nat
    const window: real
    var counters: map<Ip, Counter>
    ghost var seen: seq<Arrival>

    /** Every counter is the one its own address's requests make; other addresses have no part in it. */
    ghost predicate Valid()
      reads this
    {
      forall ip: Ip :: (if ip in counters then Some(counters[ip]) else None) == CounterAfter(TimesOf(seen, ip), window)
    }

    constructor (max: nat, window: real)
      ensures Valid() && seen == [] && this.max == max && this.window == window
    {
      this.max := max;
      this.window := window;
      counters := map[];
      seen := [];
    }

    /** True when the request goes on, false for 429 Too Many Requests. */
    method RateLimit(ip: Ip, now: real) returns (allowed: bool)
      requires Valid()
      modifies this
      ensures Valid() && seen == old(seen) + [Arrival(ip, now)]
      ensures var times := TimesOf(seen, ip);
              times != [] && (allowed <==> Admitted(times, |times| - 1, max, window))
    {
      hide CounterAfter, TimesOf, Opener;
      ghost var mine := TimesOf(seen, ip);
      CountIsPositive(mine, window);
      var current := 1;
      if ip in counters && now < counters[ip].expires {
        current := counters[ip].count + 1;
      }
      var expires := if current == 1 then now + window else counters[ip].expires;
      var counter := Counter(current, expires);
      assert counter == Increment(CounterAfter(mine, window), now, window);
      SeenGrows(seen, ip, now, window);
      CounterMatches(mine + [now], window);
      counters := counters[ip := counter];
      seen := seen + [Arrival(ip, now)];
      allowed := !(current > max);
    }
  }

  /** A request adds its time to its own address and leaves every other one as it was. */
  lemma SeenGrows(before: seq<Arrival>, ip: Ip, now: real, window: real)
    ensures var seen := before + [Arrival(ip, now)];
            && TimesOf(seen, ip) == TimesOf(before, ip) + [now]
            && CounterAfter(TimesOf(seen, ip), window)
                == Some(Increment(CounterAfter(TimesOf(before, ip), window), now, window))
            && forall other :: other != ip ==> TimesOf(seen, other) == TimesOf(before, other)
  {
    var seen := before + [Arrival(ip, now)];
    assert seen[..|before|] == before;
    var times := TimesOf(before, ip) + [now];
    assert times[..|times| - 1] == TimesOf(before, ip);
  }

  lemma CountIsPositive(times: seq<real>, window: real)
    ensures CounterAfter(times, window).Some? ==> CounterAfter(times, window).value.count >= 1
  {
  }

  /* ---- One window ---- */

  /** Requests `lo` to `hi` are within one window that request `o` opened. */
  ghost predicate InWindow(times: seq<real>, lo: nat, hi: nat, o: nat, window: real) {
    && o <= lo <= hi <= |times|
    && forall i :: lo <= i < hi ==> Opener(times, i, window) == o
  }

  /** Within a window, what is admitted is what the requests before left of the limit. */
  lemma {:induction false} WindowShare(times: seq<real>, lo: nat, hi: nat, o: nat, max: nat, window: real)
    requires InWindow(times, lo, hi, o, window)
    ensures AdmittedIn(times, lo, hi, max, window) == Min(hi - lo, Max(0, max - (lo - o)))
    decreases hi - lo
  {
    if lo < hi {
      assert Opener(times, hi - 1, window) == o;
      WindowShare(times, lo, hi - 1, o, max, window);
    }
  }

  /** A whole window admits exactly the smaller of its requests and the limit. */
  lemma WindowAdmitsLimit(times: seq<real>, o: nat, hi: nat, max: nat, window: real)
    requires InWindow(times, o, hi, o, window)
    ensures AdmittedIn(times, o, hi, max, window) == Min(hi - o, max)
  {
    WindowShare(times, o, hi, o, max, window);
  }

  /* ---- Any interval of one window length ---- */

  lemma {:induction false} AdmittedSplits(times: seq<real>, lo: nat, mid: nat, hi: nat, max: nat, window: real)
    requires lo <= mid <= hi <= |times|
    ensures AdmittedIn(times, lo, hi, max, window)
            == AdmittedIn(times, lo, mid, max, window) + AdmittedIn(times, mid, hi, max, window)
    decreases hi - mid
  {
    if mid < hi {
      AdmittedSplits(times, lo, mid, hi - 1, max, window);
    }
  }

  /** Requests close enough to the opener share its window. */
  lemma {:induction false} StaysInWindow(times: seq<real>, o: nat, hi: nat, window: real)
    requires Ordered(times) && o < hi <= |times| && Opener(times, o, window) == o
    requires times[hi - 1] < times[o] + window
    ensures InWindow(times, o, hi, o, window)
    decreases hi
  {
    if o + 1 < hi {
      assert times[hi - 2] <= times[hi - 1];
      StaysInWindow(times, o, hi - 1, window);
    }
  }

  /** The end of the part of `lo..hi` that shares the window of `lo`. */
  lemma {:induction false} SplitAtWindow(times: seq<real>, lo: nat, hi: nat, window: real) returns (mid: nat)
    requires lo < hi <= |times|
    ensures lo < mid <= hi && InWindow(times, lo, mid, Opener(times, lo, window), window)
    ensures mid < hi ==> Opener(times, mid, window) == mid
    decreases hi - lo
  {
    if hi == lo + 1 {
      mid := hi;
    } else {
      mid := SplitAtWindow(times, lo, hi - 1, window);
      if mid == hi - 1 && Opener(times, hi - 1, window) == Opener(times, lo, window) {
        mid := hi;
      }
    }
  }

  /**
   The bound: any interval of one window length admits at most 2 * max - 1 requests. Two windows can meet
   in it, but then the request that opened the first one lies before it.
   */
  lemma IntervalAdmitsLessThanTwice(times: seq<real>, lo: nat, hi: nat, from: real, max: nat, window: real)
    requires Ordered(times) && lo <= hi <= |times|
    requires forall i :: lo <= i < hi ==> from <= times[i] < from + window
    ensures AdmittedIn(times, lo, hi, max, window) <= Max(0, 2 * max - 1)
  {
    if lo < hi {
      var o := Opener(times, lo, window);
      var mid := SplitAtWindow(times, lo, hi, window);
      WindowShare(times, lo, mid, o, max, window);
      if mid < hi {
        StaysInWindow(times, mid, hi, window);
        WindowAdmitsLimit(times, mid, hi, max, window);
        AdmittedSplits(times, lo, mid, hi, max, window);
        LaterWindowIsApart(times, lo, mid, o, window);
      }
    }
  }

  /** The next window opens only when the last one has expired. */
  lemma LaterWindowIsApart(times: seq<real>, lo: nat, mid: nat, o: nat, window: real)
    requires lo < mid < |times| && InWindow(times, lo, mid, o, window)
    requires Opener(times, mid, window) == mid
    ensures times[o] + window <= times[mid]
  {
    assert Opener(times, mid - 1, window) == o;
  }

  /* ---- The bound is attained ---- */

  /** One request, the rest of the limit a gap before the window ends, and a full limit when it has ended. */
  function Burst(max: nat, window: real, gap: real): seq<real>
    requires max > 0
  {
    seq(2 * max, i => if i == 0 then 0.0 else if i < max then window - gap else window)
  }

  lemma {:induction false} BurstOpeners(max: nat, window: real, gap: real, i: nat)
    requires max > 0 && 0.0 < gap <= window && i < 2 * max
    ensures Opener(Burst(max, window, gap), i, window) == if i < max then 0 else max
  {
    if i > 0 {
      BurstOpeners(max, window, gap, i - 1);
    }
  }

  /**
   Not a sliding window: 2 * max - 1 requests are admitted within any gap, however short, which for a limit
   of two or more is above the limit.
   */
  lemma SlidingWindowIsExceeded(max: nat, window: real, gap: real)
    requires max > 0 && 0.0 < gap <= window
    ensures var times := Burst(max, window, gap);
            && Ordered(times)
            && (forall i :: 1 <= i < 2 * max ==> window - gap <= times[i] <= window)
            && AdmittedIn(times, 1, 2 * max, max, window) == 2 * max - 1
  {
    var times := Burst(max, window, gap);
    forall i | 0 <= i < 2 * max ensures Opener(times, i, window) == if i < max then 0 else max {
      BurstOpeners(max, window, gap, i);
    }
    WindowShare(times, 1, max, 0, max, window);
    WindowAdmitsLimit(times, max, 2 * max, max, window);
    AdmittedSplits(times, 1, max, 2 * max, max, window);
  }

  /* ---- Exactly when it is a sliding window ---- */

  /** In every interval of one window length at most `max` requests are admitted. */
  ghost predicate Slides(times: seq<real>, max: nat, window: real) {
    forall lo: nat, hi: nat, from :: Within(times, lo, hi, from, window) ==>
        AdmittedIn(times, lo, hi, max, window) <= max
  }

  /** Requests `lo` to `hi` arrive in the interval of one window length that begins at `from`. */
  ghost predicate Within(times: seq<real>, lo: nat, hi: nat, from: real, window: real) {
    && lo <= hi <= |times|
    && forall i :: lo <= i < hi ==> from <= times[i] < from + window
  }

  /**
   The limiter is a sliding window if and only if its limit is at most one request, or its window is empty.
   Every other configuration admits more than its limit within one window length.
   */
  lemma SlidingWindowIff(max: nat, window: real)
    ensures (forall times :: Ordered(times) ==> Slides(times, max, window)) <==> max <= 1 || window <= 0.0
  {
    if max <= 1 || window <= 0.0 {
      forall times, lo: nat, hi: nat, from | Ordered(times) && Within(times, lo, hi, from, window)
        ensures AdmittedIn(times, lo, hi, max, window) <= max
      {
        assert lo < hi ==> from <= times[lo] < from + window;
        IntervalAdmitsLessThanTwice(times, lo, hi, from, max, window);
      }
    } else {
      var times := Burst(max, window, window / 2.0);
      SlidingWindowIsExceeded(max, window, window / 2.0);
      assert Within(times, 1, 2 * max, window / 2.0, window);
      assert !Slides(times, max, window);
    }
  }
}
