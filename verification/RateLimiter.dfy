/** Per-service request limiting with counting windows, and what it guarantees for an arbitrary interval of time. */
module RateLimiter {
  import opened Prelude

  datatype Bucket = Bucket(count: int, windowStart: int)

  type Buckets = map<string, Bucket>

  datatype Decision = Allowed | Denied(maxRequests: int, windowMs: int)

  function BucketOf(buckets: Buckets, id: string): Option<Bucket>
  {
    if id in buckets then Some(buckets[id]) else None
  }

  /** The bucket after a request at `now`, and whether the request passes. */
  function Count(bucket: Option<Bucket>, now: int, max: int, windowMs: int): (Bucket, bool)
  {
    var current :=
      if bucket.None? || now - bucket.value.windowStart >= windowMs then Bucket(0, now) else bucket.value;
    if current.count >= max then (current, false) else (current.(count := current.count + 1), true)
  }

  class ServiceControlPlaneAuth {
    const maxRequestsPerMinute: int
    const windowMs: int
    var rateLimitBuckets: Buckets

    constructor (maxRequestsPerMinute: Option<int>, windowMs: Option<int>)
      ensures this.maxRequestsPerMinute == if maxRequestsPerMinute.Some? then maxRequestsPerMinute.value else 60
      ensures this.windowMs == if windowMs.Some? then windowMs.value else 60_000
      ensures rateLimitBuckets == map[]
    {
      this.maxRequestsPerMinute := if maxRequestsPerMinute.Some? then maxRequestsPerMinute.value else 60;
      this.windowMs := if windowMs.Some? then windowMs.value else 60_000;
      rateLimitBuckets := map[];
    }

    method CheckRateLimit(now: int, serviceId: string) returns (decision: Decision)
      modifies this
      ensures (rateLimitBuckets, decision.Allowed?)
           == Step(old(rateLimitBuckets), Request(now, serviceId), maxRequestsPerMinute, windowMs)
    {
      if serviceId !in rateLimitBuckets || now - rateLimitBuckets[serviceId].windowStart >= windowMs {
        rateLimitBuckets := rateLimitBuckets[serviceId := Bucket(0, now)];
      }
      var bucket := rateLimitBuckets[serviceId];
      if bucket.count >= maxRequestsPerMinute {
        assert rateLimitBuckets == old(rateLimitBuckets)[serviceId := bucket];
        return Denied(maxRequestsPerMinute, windowMs);
      }
      rateLimitBuckets := rateLimitBuckets[serviceId := bucket.(count := bucket.count + 1)];
      assert rateLimitBuckets == old(rateLimitBuckets)[serviceId := bucket.(count := bucket.count + 1)];
      return Allowed;
    }

    method ResetRateLimit(serviceId: string)
      modifies this
      ensures rateLimitBuckets == old(rateLimitBuckets) - {serviceId}
    {
      rateLimitBuckets := rateLimitBuckets - {serviceId};
    }
  }

  // ----- Runs -----

  datatype Request = Request(now: int, service: string)

  function Step(buckets: Buckets, r: Request, max: int, windowMs: int): (Buckets, bool)
  {
    var (bucket, allowed) := Count(BucketOf(buckets, r.service), r.now, max, windowMs);
    (buckets[r.service := bucket], allowed)
  }

  /** The decisions of a run, in order. */
  function Decisions(buckets: Buckets, run: seq<Request>, max: int, windowMs: int): (ds: seq<bool>)
    ensures |ds| == |run|
    decreases |run|
  {
    if run == [] then []
    else
      var (after, allowed) := Step(buckets, run[0], max, windowMs);
      [allowed] + Decisions(after, run[1..], max, windowMs)
  }

  /** The clock never goes back, and starts no earlier than `since`. */
  ghost predicate Clocked(run: seq<Request>, since: int)
  {
    (forall i :: 0 <= i < |run| ==> since <= run[i].now) &&
    forall i, j :: 0 <= i < j < |run| ==> run[i].now <= run[j].now
  }

  predicate Within(r: Request, service: string, from: int, length: int)
  {
    r.service == service && from <= r.now < from + length
  }

  /** How many requests of `service` in `[from, from + length)` a run of these decisions lets through. */
  function Passed(run: seq<Request>, ds: seq<bool>, service: string, from: int, length: int): nat
    requires |ds| == |run|
  {
    if run == [] then 0
    else
      (if ds[0] && Within(run[0], service, from, length) then 1 else 0)
      + Passed(run[1..], ds[1..], service, from, length)
  }

  // ----- Services do not share counts -----

  function OnlyOf(service: string, run: seq<Request>): seq<Request>
  {
    if run == [] then []
    else (if run[0].service == service then [run[0]] else []) + OnlyOf(service, run[1..])
  }

  function DecisionsOf(service: string, run: seq<Request>, ds: seq<bool>): seq<bool>
    requires |ds| == |run|
  {
    if run == [] then []
    else (if run[0].service == service then [ds[0]] else []) + DecisionsOf(service, run[1..], ds[1..])
  }

  /** The decisions a service gets are those it would get if it were alone. */
  lemma {:induction false} ServicesAreIndependent(
      buckets: Buckets, alone: Buckets, run: seq<Request>, service: string, max: int, windowMs: int)
    requires BucketOf(buckets, service) == BucketOf(alone, service)
    ensures DecisionsOf(service, run, Decisions(buckets, run, max, windowMs))
         == Decisions(alone, OnlyOf(service, run), max, windowMs)
    decreases |run|
  {
    hide Count;
    if run != [] {
      var after := Step(buckets, run[0], max, windowMs).0;
      var ds := Decisions(buckets, run, max, windowMs);
      assert ds[1..] == Decisions(after, run[1..], max, windowMs);
      if run[0].service == service {
        ServicesAreIndependent(after, Step(alone, run[0], max, windowMs).0, run[1..], service, max, windowMs);
        assert ([run[0]] + OnlyOf(service, run[1..]))[1..] == OnlyOf(service, run[1..]);
      } else {
        ServicesAreIndependent(after, alone, run[1..], service, max, windowMs);
        assert DecisionsOf(service, run, ds) == DecisionsOf(service, run[1..], ds[1..]);
        assert OnlyOf(service, run) == OnlyOf(service, run[1..]);
      }
    }
  }

  // ----- The bound -----

  /** What holds of a bucket once a request was counted: opened by `last`, and holding between 1 and `max` requests. */
  predicate Sound(bucket: Option<Bucket>, last: int, max: int)
  {
    bucket.Some? ==> bucket.value.windowStart <= last && 1 <= bucket.value.count <= max
  }

  /** How many requests in `[from, from + length)` can still pass, after one at `last`. */
  function Budget(bucket: Option<Bucket>, last: int, from: int, length: int, max: int): int
  {
    if bucket.None? then 2 * max - 1
    else if bucket.value.windowStart < from then
      if last < from then 2 * max - 1 else 2 * max - bucket.value.count
    else if bucket.value.windowStart < from + length then max - bucket.value.count
    else 0
  }

  lemma StepSpendsBudget(bucket: Option<Bucket>, last: int, now: int, from: int, max: int, windowMs: int)
    requires max >= 1 && Sound(bucket, last, max) && last <= now
    ensures
      var (after, allowed) := Count(bucket, now, max, windowMs);
      Sound(Some(after), now, max) &&
      Budget(bucket, last, from, windowMs, max) >=
        Budget(Some(after), now, from, windowMs, max) + if allowed && from <= now < from + windowMs then 1 else 0
  {
  }

  lemma WaitingAddsNoBudget(bucket: Option<Bucket>, last: int, now: int, from: int, length: int, max: int)
    requires max >= 1 && Sound(bucket, last, max) && last <= now
    ensures Sound(bucket, now, max)
    ensures Budget(bucket, now, from, length, max) <= Budget(bucket, last, from, length, max)
  {
  }

  lemma {:induction false} PassedWithinBudget(
      buckets: Buckets, run: seq<Request>, last: int, service: string, from: int, max: int, windowMs: int)
    requires max >= 1 && Sound(BucketOf(buckets, service), last, max) && Clocked(run, last)
    ensures Passed(run, Decisions(buckets, run, max, windowMs), service, from, windowMs)
         <= Budget(BucketOf(buckets, service), last, from, windowMs, max)
    decreases |run|
  {
    hide Count, Budget, Sound;
    if run == [] {
      BudgetIsNotNegative(BucketOf(buckets, service), last, from, windowMs, max);
    } else {
      var (after, allowed) := Step(buckets, run[0], max, windowMs);
      assert Decisions(buckets, run, max, windowMs)[1..] == Decisions(after, run[1..], max, windowMs);
      assert Clocked(run[1..], run[0].now);
      if run[0].service == service {
        StepSpendsBudget(BucketOf(buckets, service), last, run[0].now, from, max, windowMs);
      } else {
        WaitingAddsNoBudget(BucketOf(buckets, service), last, run[0].now, from, windowMs, max);
      }
      PassedWithinBudget(after, run[1..], run[0].now, service, from, max, windowMs);
    }
  }

  lemma BudgetIsNotNegative(bucket: Option<Bucket>, last: int, from: int, length: int, max: int)
    requires max >= 1 && Sound(bucket, last, max)
    ensures Budget(bucket, last, from, length, max) >= 0
  {
  }

  lemma {:induction false} NothingPassesWithoutLimit(
      buckets: Buckets, run: seq<Request>, service: string, from: int, length: int, max: int, windowMs: int)
    requires max <= 0 && (service in buckets ==> buckets[service].count >= 0)
    ensures Passed(run, Decisions(buckets, run, max, windowMs), service, from, length) == 0
    decreases |run|
  {
    if run != [] {
      var after := Step(buckets, run[0], max, windowMs).0;
      assert Decisions(buckets, run, max, windowMs)[1..] == Decisions(after, run[1..], max, windowMs);
      NothingPassesWithoutLimit(after, run[1..], service, from, length, max, windowMs);
    }
  }

  /** The most that can pass in an interval as long as the window. */
  function Bound(max: int): nat
  {
    if max <= 0 then 0 else 2 * max - 1
  }

  /** Main result: in any interval of length `windowMs`, at most `2 * max - 1` requests of one service pass. */
  lemma PassedIsBounded(run: seq<Request>, since: int, service: string, from: int, max: int, windowMs: int)
    requires Clocked(run, since)
    ensures Passed(run, Decisions(map[], run, max, windowMs), service, from, windowMs) <= Bound(max)
  {
    if max >= 1 {
      PassedWithinBudget(map[], run, since, service, from, max, windowMs);
    } else {
      NothingPassesWithoutLimit(map[], run, service, from, windowMs, max, windowMs);
    }
  }

  /** From the request that opens a window on, at most `max` pass before the window's end, the opening one included. */
  lemma WindowIsBounded(buckets: Buckets, run: seq<Request>, service: string, max: int, windowMs: int)
    requires max >= 1 && service in buckets && 1 <= buckets[service].count <= max && windowMs > 0
    requires Clocked(run, buckets[service].windowStart)
    ensures
      buckets[service].count
      + Passed(run, Decisions(buckets, run, max, windowMs), service, buckets[service].windowStart, windowMs) <= max
  {
    PassedWithinBudget(buckets, run, buckets[service].windowStart, service, buckets[service].windowStart, max,
      windowMs);
  }

  // ----- The bound is reached -----

  function Times(n: nat, r: Request): (run: seq<Request>)
    ensures |run| == n && forall i :: 0 <= i < n ==> run[i] == r
  {
    seq(n, _ => r)
  }

  /** `n` requests at one instant of an open window with room for them all pass. */
  lemma {:induction false} RoomForAll(
      buckets: Buckets, n: nat, r: Request, rest: seq<Request>, from: int, max: int, windowMs: int)
    requires r.service in buckets && r.now - buckets[r.service].windowStart < windowMs
    requires buckets[r.service].count + n <= max && Within(r, r.service, from, windowMs)
    ensures
      var bucket := buckets[r.service];
      var after := buckets[r.service := bucket.(count := bucket.count + n)];
      Passed(Times(n, r) + rest, Decisions(buckets, Times(n, r) + rest, max, windowMs), r.service, from, windowMs)
      == n + Passed(rest, Decisions(after, rest, max, windowMs), r.service, from, windowMs)
    decreases n
  {
    hide Decisions, Passed;
    var run, bucket := Times(n, r) + rest, buckets[r.service];
    if n == 0 {
      assert run == rest && buckets[r.service := bucket] == buckets;
    } else {
      var after := Step(buckets, r, max, windowMs).0;
      assert run == [r] + (Times(n - 1, r) + rest);
      OnePasses(buckets, r, Times(n - 1, r) + rest, from, max, windowMs);
      RoomForAll(after, n - 1, r, rest, from, max, windowMs);
      assert after[r.service := Bucket(bucket.count + n, bucket.windowStart)]
          == buckets[r.service := Bucket(bucket.count + n, bucket.windowStart)];
    }
  }

  lemma OnePasses(buckets: Buckets, r: Request, rest: seq<Request>, from: int, max: int, windowMs: int)
    requires r.service in buckets && r.now - buckets[r.service].windowStart < windowMs
    requires buckets[r.service].count < max && Within(r, r.service, from, windowMs)
    ensures
      var after := Step(buckets, r, max, windowMs).0;
      Passed([r] + rest, Decisions(buckets, [r] + rest, max, windowMs), r.service, from, windowMs)
      == 1 + Passed(rest, Decisions(after, rest, max, windowMs), r.service, from, windowMs)
  {
    var after := Step(buckets, r, max, windowMs).0;
    ConsTail(r, rest);
    ConsTail(true, Decisions(after, rest, max, windowMs));
    assert Decisions(buckets, [r] + rest, max, windowMs) == [true] + Decisions(after, rest, max, windowMs);
  }

  /** One request opens a window, the rest of its quota comes at the end of it, the next quota right behind. */
  function DoubleBurst(max: int, windowMs: int): seq<Request>
    requires max >= 1
  {
    [Request(0, "s")] + (Times(max - 1, Request(windowMs - 1, "s")) + Times(max, Request(windowMs, "s")))
  }

  lemma BoundIsReached(max: int, windowMs: int)
    requires max >= 1 && windowMs >= 2
    ensures Clocked(DoubleBurst(max, windowMs), 0)
    ensures
      var run := DoubleBurst(max, windowMs);
      Passed(run, Decisions(map[], run, max, windowMs), "s", 1, windowMs) == 2 * max - 1
  {
    var run, late, next := DoubleBurst(max, windowMs), Request(windowMs - 1, "s"), Request(windowMs, "s");
    var first: Buckets := map["s" := Bucket(1, 0)];
    var tail := Times(max - 1, late) + Times(max, next);
    hide Decisions, Passed;
    OpensWindow(Request(0, "s"), tail, max, windowMs);
    RoomForAll(first, max - 1, late, Times(max, next), 1, max, windowMs);
    var full: Buckets := first["s" := Bucket(max, 0)];
    assert full == first["s" := first["s"].(count := 1 + (max - 1))];
    FreshBurstPasses(full, next, max, windowMs);
  }

  /** A request before the interval opens a window and does not count for the interval. */
  lemma OpensWindow(opening: Request, tail: seq<Request>, max: int, windowMs: int)
    requires max >= 1 && opening == Request(0, "s")
    ensures
      var first: Buckets := map["s" := Bucket(1, 0)];
      Passed([opening] + tail, Decisions(map[], [opening] + tail, max, windowMs), "s", 1, windowMs)
      == Passed(tail, Decisions(first, tail, max, windowMs), "s", 1, windowMs)
  {
    var first: Buckets := map["s" := Bucket(1, 0)];
    var run := [opening] + tail;
    ConsTail(opening, tail);
    assert Step(map[], opening, max, windowMs) == (first, true);
    ConsTail(true, Decisions(first, tail, max, windowMs));
    assert Decisions(map[], run, max, windowMs) == [true] + Decisions(first, tail, max, windowMs);
  }

  lemma FreshBurstPasses(full: Buckets, next: Request, max: int, windowMs: int)
    requires max >= 1 && windowMs >= 2 && next.service in full && next.now == windowMs
    requires next.now - full[next.service].windowStart >= windowMs
    ensures
      Passed(Times(max, next), Decisions(full, Times(max, next), max, windowMs), next.service, 1, windowMs) == max
  {
    var run := Times(max, next);
    var (after, allowed) := Step(full, next, max, windowMs);
    assert run[1..] == Times(max - 1, next) + [];
    assert Decisions(full, run, max, windowMs)[1..] == Decisions(after, run[1..], max, windowMs);
    RoomForAll(after, max - 1, next, [], 1, max, windowMs);
  }

  /** What "at most `max` requests per window" promises for a sliding window. */
  ghost predicate SlidingPromise(max: int, windowMs: int)
  {
    forall run, service, from :: Clocked(run, 0) ==>
      Passed(run, Decisions(map[], run, max, windowMs), service, from, windowMs) <= if max < 0 then 0 else max
  }

  lemma {:induction false} NothingInEmptyInterval(run: seq<Request>, ds: seq<bool>, service: string, from: int,
      length: int)
    requires |ds| == |run| && length <= 0
    ensures Passed(run, ds, service, from, length) == 0
  {
    if run != [] {
      NothingInEmptyInterval(run[1..], ds[1..], service, from, length);
    }
  }

  /** In a one-millisecond window no counter survives into the next instant. */
  lemma {:induction false} ShortWindow(
      buckets: Buckets, run: seq<Request>, last: int, service: string, from: int, max: int, windowMs: int)
    requires max >= 1 && windowMs == 1 && Clocked(run, last) && Sound(BucketOf(buckets, service), last, max)
    ensures Passed(run, Decisions(buckets, run, max, windowMs), service, from, windowMs)
         <= if service in buckets && last == buckets[service].windowStart == from then max - buckets[service].count
            else if service in buckets && last >= from && buckets[service].windowStart >= from then 0 else max
    decreases |run|
  {
    if run != [] {
      var (after, allowed) := Step(buckets, run[0], max, windowMs);
      assert Decisions(buckets, run, max, windowMs)[1..] == Decisions(after, run[1..], max, windowMs);
      assert Clocked(run[1..], run[0].now);
      ShortWindow(after, run[1..], run[0].now, service, from, max, windowMs);
    }
  }

  /** The promise of a sliding window is kept exactly for limits up to one, or windows that hold a single instant. */
  lemma SlidingPromiseIff(max: int, windowMs: int)
    ensures SlidingPromise(max, windowMs) <==> max <= 1 || windowMs <= 1
  {
    hide Decisions, Passed, Clocked;
    if max <= 1 {
      forall run, service, from | Clocked(run, 0)
        ensures Passed(run, Decisions(map[], run, max, windowMs), service, from, windowMs) <= if max < 0 then 0 else max
      {
        PassedIsBounded(run, 0, service, from, max, windowMs);
      }
    } else if windowMs <= 1 {
      forall run, service, from | Clocked(run, 0)
        ensures Passed(run, Decisions(map[], run, max, windowMs), service, from, windowMs) <= max
      {
        if windowMs == 1 {
          ShortWindow(map[], run, 0, service, from, max, windowMs);
        } else {
          NothingInEmptyInterval(run, Decisions(map[], run, max, windowMs), service, from, windowMs);
        }
      }
    } else {
      BoundIsReached(max, windowMs);
      assert !SlidingPromise(max, windowMs);
    }
  }
}
