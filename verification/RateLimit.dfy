/** The sliding-window rate limiter: the object itself, and what whole runs of calls guarantee. */
module RateLimit {
  import opened Runs

  datatype Result = Result(allowed: bool, retryAfter: int, remaining: int)

  /** The two constructor settings, each at least 1. */
  datatype Limits = Limits(maxAttempts: nat, window: nat) {
    predicate Valid() { maxAttempts >= 1 && window >= 1 }
  }

  type Hits = map<string, seq<real>>

  function AtLeastOne(n: int): nat { if n < 1 then 1 else n }

  /** Python's `int` on a float: towards zero. */
  function Truncate(x: real): int { if x >= 0.0 then x.Floor else -((-x).Floor) }

  /** The bucket without the leading times before the cutoff. */
  function Pruned(bucket: seq<real>, cutoff: real): seq<real> {
    if bucket == [] || bucket[0] >= cutoff then bucket else Pruned(bucket[1..], cutoff)
  }

  function BucketOf(hits: Hits, key: string): seq<real> {
    if key in hits then hits[key] else []
  }

  function Live(l: Limits, hits: Hits, key: string, now: real): seq<real> {
    Pruned(BucketOf(hits, key), now - l.window as real)
  }

  predicate Allows(l: Limits, hits: Hits, key: string, now: real) {
    |Live(l, hits, key, now)| < l.maxAttempts
  }

  function RetryAfter(l: Limits, oldest: real, now: real): int {
    AtLeastOne(Truncate(l.window as real - (now - oldest)) + 1)
  }

  function Refusal(l: Limits, hits: Hits, key: string, now: real): Result
    requires l.Valid() && !Allows(l, hits, key, now)
  {
    Result(false, RetryAfter(l, Live(l, hits, key, now)[0], now), 0)
  }

  function AfterCheck(l: Limits, hits: Hits, key: string, now: real): Hits {
    hits[key := Live(l, hits, key, now)]
  }

  function AfterHit(l: Limits, hits: Hits, key: string, now: real): Hits {
    var live := Live(l, hits, key, now);
    hits[key := if |live| < l.maxAttempts then live + [now] else live]
  }

  function AfterReset(hits: Hits, key: string): Hits { hits - {key} }

  class SlidingWindowRateLimiter {
    const limits: Limits
    var hits: Hits

    constructor (maxAttempts: int, windowSeconds: int)
      ensures limits == Limits(AtLeastOne(maxAttempts), AtLeastOne(windowSeconds)) && limits.Valid()
      ensures hits == map[]
    {
      limits := Limits(AtLeastOne(maxAttempts), AtLeastOne(windowSeconds));
      hits := map[];
    }

    /** Drops expired times from the front of a bucket. */
    method Prune(key: string, now: real)
      requires key in hits
      modifies this
      ensures hits == old(hits)[key := Pruned(old(hits)[key], now - limits.window as real)]
    {
      var cutoff := now - limits.window as real;
      while hits[key] != [] && hits[key][0] < cutoff
        invariant key in hits && hits == old(hits)[key := hits[key]]
        invariant Pruned(hits[key], cutoff) == Pruned(old(hits)[key], cutoff)
        decreases |hits[key]|
      {
        hits := hits[key := hits[key][1..]];
      }
    }

    method Check(key: string, now: real) returns (r: Result)
      requires limits.Valid()
      modifies this
      ensures hits == AfterCheck(limits, old(hits), key, now)
      ensures r.allowed == Allows(limits, old(hits), key, now)
      ensures r == if r.allowed then Result(true, 0, limits.maxAttempts - |hits[key]|)
                   else Refusal(limits, old(hits), key, now)
    {
      if key !in hits {
        hits := hits[key := []];
      }
      Prune(key, now);
      var bucket := hits[key];
      if |bucket| >= limits.maxAttempts {
        return Result(false, RetryAfter(limits, bucket[0], now), 0);
      }
      r := Result(true, 0, limits.maxAttempts - |bucket|);
    }

    method Hit(key: string, now: real) returns (r: Result)
      requires limits.Valid()
      modifies this
      ensures hits == AfterHit(limits, old(hits), key, now)
      ensures r.allowed == Allows(limits, old(hits), key, now)
      ensures r == if r.allowed then Result(true, 0, limits.maxAttempts - |hits[key]|)
                   else Refusal(limits, old(hits), key, now)
    {
      if key !in hits {
        hits := hits[key := []];
      }
      Prune(key, now);
      var bucket := hits[key];
      if |bucket| >= limits.maxAttempts {
        return Result(false, RetryAfter(limits, bucket[0], now), 0);
      }
      hits := hits[key := bucket + [now]];
      r := Result(true, 0, limits.maxAttempts - |hits[key]|);
    }

    method Reset(key: string)
      modifies this
      ensures hits == AfterReset(old(hits), key)
    {
      hits := hits - {key};
    }
  }

  // ---------------------------------------------------------------- runs

  datatype Call = CheckCall(key: string, now: real) | HitCall(key: string, now: real) | ResetCall(key: string)

  function Step(l: Limits, hits: Hits, c: Call): Hits {
    match c
    case CheckCall(key, now) => AfterCheck(l, hits, key, now)
    case HitCall(key, now) => AfterHit(l, hits, key, now)
    case ResetCall(key) => AfterReset(hits, key)
  }

  function Stepper(l: Limits): (Hits, Call) -> Hits { (hits: Hits, c: Call) => Step(l, hits, c) }

  function Run(l: Limits, calls: seq<Call>): Hits { Fold(Stepper(l), map[], calls) }

  predicate ClockMoves(calls: seq<Call>) {
    forall i, j :: 0 <= i < j < |calls| && !calls[i].ResetCall? && !calls[j].ResetCall? ==> calls[i].now <= calls[j].now
  }

  /** The times of the key's accepted hits since its last reset (of all of them, if it was never reset). */
  function Accepted(l: Limits, calls: seq<Call>, key: string): seq<real> {
    if calls == [] then []
    else
      var before := calls[..|calls| - 1];
      var c := calls[|calls| - 1];
      if c.key != key then Accepted(l, before, key)
      else if c.ResetCall? then []
      else if c.HitCall? && Allows(l, Run(l, before), key, c.now) then Accepted(l, before, key) + [c.now]
      else Accepted(l, before, key)
  }

  predicate Sorted(times: seq<real>) {
    forall i, j :: 0 <= i <= j < |times| ==> times[i] <= times[j]
  }

  lemma {:induction false} PrunedIsSuffix(times: seq<real>, cutoff: real)
    requires Sorted(times)
    ensures var p := Pruned(times, cutoff);
      && |p| <= |times| && p == times[|times| - |p|..]
      && (forall i :: 0 <= i < |times| ==> (times[i] < cutoff <==> i < |times| - |p|))
  {
    if times != [] && times[0] < cutoff {
      PrunedIsSuffix(times[1..], cutoff);
      var p := Pruned(times[1..], cutoff);
      assert times[1..][|times| - 1 - |p|..] == times[|times| - |p|..];
      assert forall i :: 1 <= i < |times| ==> times[i] == times[1..][i - 1];
    }
  }

  lemma {:induction false} PrunedTwice(times: seq<real>, first: real, second: real)
    requires first <= second
    ensures Pruned(Pruned(times, first), second) == Pruned(times, second)
  {
    if times != [] && times[0] < first {
      PrunedTwice(times[1..], first, second);
    }
  }

  /** Any `maxAttempts + 1` accepted hits in a row span more than the window. */
  predicate Spread(l: Limits, times: seq<real>) {
    forall i :: 0 <= i < |times| - l.maxAttempts ==> times[i + l.maxAttempts] - times[i] > l.window as real
  }

  predicate CutAt(l: Limits, times: seq<real>, bucket: seq<real>, last: real) {
    bucket == Pruned(times, last - l.window as real)
  }

  /** `when` bounds every time so far; the bucket was last cut at `last`. */
  ghost predicate RunInv(l: Limits, calls: seq<Call>, key: string, when: real) {
    var times, bucket := Accepted(l, calls, key), BucketOf(Run(l, calls), key);
    && Sorted(times) && Spread(l, times) && |bucket| <= l.maxAttempts
    && (forall i :: 0 <= i < |times| ==> times[i] <= when)
    && exists last :: last <= when && CutAt(l, times, bucket, last)
  }

  lemma RunLast(l: Limits, calls: seq<Call>)
    requires calls != []
    ensures Run(l, calls) == Step(l, Run(l, calls[..|calls| - 1]), calls[|calls| - 1])
  {
  }

  /** The one step that matters: a check or hit of this key at `now`. */
  lemma {:induction false} OwnCall(l: Limits, times: seq<real>, bucket: seq<real>, last: real, now: real)
    requires l.Valid() && Sorted(times) && Spread(l, times) && last <= now
    requires forall i :: 0 <= i < |times| ==> times[i] <= now
    requires bucket == Pruned(times, last - l.window as real)
    ensures var live := Pruned(bucket, now - l.window as real);
      && live == Pruned(times, now - l.window as real)
      && (|live| < l.maxAttempts ==>
            && Sorted(times + [now]) && Spread(l, times + [now])
            && live + [now] == Pruned(times + [now], now - l.window as real))
  {
    var cutoff := now - l.window as real;
    PrunedTwice(times, last - l.window as real, cutoff);
    var live := Pruned(times, cutoff);
    if |live| < l.maxAttempts {
      var more := times + [now];
      PrunedIsSuffix(times, cutoff);
      assert Sorted(more);
      PrunedIsSuffix(more, cutoff);
      assert more[|times|] == now >= cutoff;
      var p := Pruned(more, cutoff);
      assert forall i :: 0 <= i < |times| ==> more[i] == times[i];
      SameCut(times, more, cutoff);
      forall i | 0 <= i < |more| - l.maxAttempts ensures more[i + l.maxAttempts] - more[i] > l.window as real {
        if i + l.maxAttempts < |times| {
          assert times[i + l.maxAttempts] - times[i] > l.window as real;
        } else {
          assert i < |times| - |live| && times[i] < cutoff;
        }
      }
    }
  }

  lemma {:induction false} SameCut(times: seq<real>, more: seq<real>, cutoff: real)
    requires more != [] && times == more[..|more| - 1] && more[|more| - 1] >= cutoff
    ensures Pruned(more, cutoff) == Pruned(times, cutoff) + [more[|more| - 1]]
  {
    if times != [] && times[0] < cutoff {
      SameCut(times[1..], more[1..], cutoff);
    } else {
      assert more == times + [more[|more| - 1]];
    }
  }

  lemma BeforeLast(calls: seq<Call>, c: Call)
    requires ClockMoves(calls + [c])
    ensures ClockMoves(calls)
    ensures !c.ResetCall? ==> forall i :: 0 <= i < |calls| && !calls[i].ResetCall? ==> calls[i].now <= c.now
  {
    var all := calls + [c];
    assert all[|calls|] == c;
    assert forall i :: 0 <= i < |calls| ==> all[i] == calls[i];
  }

  /** One more call keeps the invariant. */
  lemma CallKeepsInv(l: Limits, calls: seq<Call>, c: Call, key: string, earlier: real, when: real)
    requires l.Valid() && RunInv(l, calls, key, earlier) && earlier <= when
    requires !c.ResetCall? ==> earlier <= c.now <= when
    ensures RunInv(l, calls + [c], key, when)
    ensures c.key == key && !c.ResetCall? ==>
              CutAt(l, Accepted(l, calls + [c], key), BucketOf(Run(l, calls + [c]), key), c.now)
  {
    assert (calls + [c])[..|calls|] == calls;
    RunLast(l, calls + [c]);
    var times, bucket := Accepted(l, calls, key), BucketOf(Run(l, calls), key);
    var times', bucket' := Accepted(l, calls + [c], key), BucketOf(Run(l, calls + [c]), key);
    var last :| last <= earlier && CutAt(l, times, bucket, last);
    if c.key != key {
      assert times' == times && bucket' == bucket;
    } else if c.ResetCall? {
      assert CutAt(l, times', bucket', when);
    } else {
      OwnCall(l, times, bucket, last, c.now);
      ShortBucket(bucket, c.now - l.window as real);
      assert CutAt(l, times', bucket', c.now);
    }
  }

  lemma {:induction false} RunKeepsInv(l: Limits, calls: seq<Call>, key: string, when: real)
    requires l.Valid() && ClockMoves(calls)
    requires forall i :: 0 <= i < |calls| && !calls[i].ResetCall? ==> calls[i].now <= when
    ensures RunInv(l, calls, key, when)
  {
    if calls == [] {
      assert CutAt(l, [], [], when);
    } else {
      var before, c := calls[..|calls| - 1], calls[|calls| - 1];
      assert calls == before + [c];
      BeforeLast(before, c);
      var earlier := if c.ResetCall? then when else c.now;
      RunKeepsInv(l, before, key, earlier);
      CallKeepsInv(l, before, c, key, earlier, when);
    }
  }

  lemma {:induction false} ShortBucket(bucket: seq<real>, cutoff: real)
    ensures |Pruned(bucket, cutoff)| <= |bucket|
  {
    if bucket != [] && bucket[0] < cutoff {
      ShortBucket(bucket[1..], cutoff);
    }
  }

  // ---------------------------------------------------------------- theorems

  function Within(times: seq<real>, low: real, high: real): seq<real> {
    if times == [] then []
    else
      var last := times[|times| - 1];
      Within(times[..|times| - 1], low, high) + if low <= last <= high then [last] else []
  }

  lemma {:induction false} WithinIsRecent(times: seq<real>, low: real, high: real)
    requires Sorted(times)
    ensures |Within(times, low, high)| <= |Pruned(times, low)|
  {
    if times != [] {
      var n := |times| - 1;
      WithinIsRecent(times[..n], low, high);
      PrunedIsSuffix(times, low);
      PrunedIsSuffix(times[..n], low);
      if times[n] >= low { SameCut(times[..n], times, low); }
    }
  }

  /** A hit that completes a run of `maxAttempts + 1` leaves fewer than `maxAttempts` before it. */
  lemma RoomForLast(l: Limits, times: seq<real>, low: real)
    requires l.Valid() && Sorted(times) && Spread(l, times) && times != []
    requires times[|times| - 1] <= low + l.window as real
    ensures |Pruned(times[..|times| - 1], low)| < l.maxAttempts
  {
    var n := |times| - 1;
    PrunedIsSuffix(times[..n], low);
    if n >= l.maxAttempts {
      var i := n - l.maxAttempts;
      assert times[i + l.maxAttempts] - times[i] > l.window as real;
      assert times[..n][i] < low;
    }
  }

  lemma {:induction false} FewWithin(l: Limits, times: seq<real>, low: real)
    requires l.Valid() && Sorted(times) && Spread(l, times)
    ensures |Within(times, low, low + l.window as real)| <= l.maxAttempts
  {
    if times != [] {
      var n := |times| - 1;
      FewWithin(l, times[..n], low);
      if times[n] <= low + l.window as real {
        RoomForLast(l, times, low);
        WithinIsRecent(times[..n], low, low + l.window as real);
      }
    }
  }

  /** Over any run with a clock that never goes back, every closed interval as long as the
      window holds at most `maxAttempts` accepted hits of a key (between its resets). */
  lemma WindowHoldsAtMostMax(l: Limits, calls: seq<Call>, key: string, when: real, low: real)
    requires l.Valid() && ClockMoves(calls)
    requires forall i :: 0 <= i < |calls| && !calls[i].ResetCall? ==> calls[i].now <= when
    ensures |Within(Accepted(l, calls, key), low, low + l.window as real)| <= l.maxAttempts
  {
    RunKeepsInv(l, calls, key, when);
    FewWithin(l, Accepted(l, calls, key), low);
  }

  /** Right after a check or hit at `now`, the bucket is exactly the accepted hits at or after
      `now` minus the window, in order; every other key's bucket is as before. */
  lemma BucketIsRecentHits(l: Limits, calls: seq<Call>, c: Call, other: string)
    requires l.Valid() && ClockMoves(calls + [c]) && !c.ResetCall?
    ensures var times := Accepted(l, calls + [c], c.key);
      var bucket := BucketOf(Run(l, calls + [c]), c.key);
      && Sorted(times)
      && |bucket| <= |times| && bucket == times[|times| - |bucket|..]
      && (forall i :: 0 <= i < |times| ==> (times[i] >= c.now - l.window as real <==> i >= |times| - |bucket|))
    ensures other != c.key ==> BucketOf(Run(l, calls + [c]), other) == BucketOf(Run(l, calls), other)
  {
    assert (calls + [c])[..|calls|] == calls;
    BeforeLast(calls, c);
    RunKeepsInv(l, calls, c.key, c.now);
    CallKeepsInv(l, calls, c, c.key, c.now, c.now);
    PrunedIsSuffix(Accepted(l, calls + [c], c.key), c.now - l.window as real);
    RunLast(l, calls + [c]);
  }

  /** The arithmetic of a full bucket whose times lie in the window ending at `now`. */
  lemma FullBucketRetry(l: Limits, live: seq<real>, now: real, k: int)
    requires l.Valid() && Sorted(live) && |live| == l.maxAttempts && k >= 1
    requires now - l.window as real <= live[0] <= now
    ensures var r := RetryAfter(l, live[0], now);
      && 1 <= r <= l.window + 1
      && (|Pruned(live, now + k as real - l.window as real)| < l.maxAttempts <==> k >= r)
  {
    var later := Pruned(live, now + k as real - l.window as real);
    PrunedIsSuffix(live, now + k as real - l.window as real);
    assert |later| < |live| <==> live[0] < now + k as real - l.window as real;
  }

  /** When a call is refused the live bucket is full, in order, and inside the window. */
  lemma RefusedBucketIsFull(l: Limits, calls: seq<Call>, key: string, now: real)
    requires l.Valid() && RunInv(l, calls, key, now) && !Allows(l, Run(l, calls), key, now)
    ensures var live := Live(l, Run(l, calls), key, now);
      Sorted(live) && |live| == l.maxAttempts && now - l.window as real <= live[0] <= now
  {
    var times, bucket := Accepted(l, calls, key), BucketOf(Run(l, calls), key);
    var last :| last <= now && CutAt(l, times, bucket, last);
    PrunedIsSuffix(times, last - l.window as real);
    PrunedIsSuffix(bucket, now - l.window as real);
  }

  /** A refusal's `retry_after` is the least positive whole number of seconds after which the
      key is allowed if nothing else is called, and lies between 1 and the window plus 1. */
  lemma RetryAfterIsExact(l: Limits, calls: seq<Call>, key: string, now: real, k: int)
    requires l.Valid() && ClockMoves(calls)
    requires forall i :: 0 <= i < |calls| && !calls[i].ResetCall? ==> calls[i].now <= now
    requires !Allows(l, Run(l, calls), key, now) && k >= 1
    ensures var r := Refusal(l, Run(l, calls), key, now).retryAfter;
      && 1 <= r <= l.window + 1
      && (Allows(l, AfterCheck(l, Run(l, calls), key, now), key, now + k as real) <==> k >= r)
  {
    RunKeepsInv(l, calls, key, now);
    RefusedBucketIsFull(l, calls, key, now);
    FullBucketRetry(l, Live(l, Run(l, calls), key, now), now, k);
  }
}
