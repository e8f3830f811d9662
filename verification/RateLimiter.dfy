/** The Redis rate limiter: INCR and EXPIRE of one key in one pipeline
    (`checkRateLimit` in server/internal/storage/redis.go). */
module RateLimiter {
  import opened Sequences

  /** The key as Redis holds it; `None` when it was never set. */
  datatype Counter = Counter(value: nat, expires: int)

  /** What INCR returns at `now`: an expired key counts from one again. */
  function Incremented(key: Option<Counter>, now: int): nat {
    if key.None? || now >= key.value.expires then 1 else key.value.value + 1
  }

  /** The key after the pipeline: EXPIRE restarts the time to live on every call, refused ones included. */
  function Touched(key: Option<Counter>, now: int, window: int): Option<Counter> {
    Some(Counter(Incremented(key, now), now + window))
  }

  class Limiter {
    const window: int
    var key: Option<Counter>

    constructor (window: int)
      ensures this.window == window && key == None
    {
      this.window := window;
      key := None;
    }

    method CheckRateLimit(limit: int, now: int) returns (allowed: bool, remaining: int)
      modifies this
      ensures key == Touched(old(key), now, window)
      ensures allowed <==> Incremented(old(key), now) <= limit
      ensures remaining == if allowed then limit - Incremented(old(key), now) else 0
    {
      var count := if key.None? || now >= key.value.expires then 1 else key.value.value + 1;
      key := Some(Counter(count, now + window));
      remaining := limit - count;
      if remaining < 0 {
        remaining := 0;
      }
      allowed := count <= limit;
    }
  }

  // ---------------------------------------------------------------- call sequences on one key

  datatype Call = Call(time: int, limit: int)

  ghost predicate InOrder(calls: seq<Call>) {
    forall i, j :: 0 <= i < j < |calls| ==> calls[i].time <= calls[j].time
  }

  /** The key after the first `n` calls. */
  function KeyAfter(calls: seq<Call>, n: nat, window: int): Option<Counter>
    requires n <= |calls|
  {
    if n == 0 then None else Touched(KeyAfter(calls, n - 1, window), calls[n - 1].time, window)
  }

  /** The limiter's verdict on call `i`. */
  predicate Allowed(calls: seq<Call>, i: nat, window: int)
    requires i < |calls|
  {
    Incremented(KeyAfter(calls, i, window), calls[i].time) <= calls[i].limit
  }

  /** Call `i` comes after a silence of at least one window (or is the first). */
  predicate AfterGap(calls: seq<Call>, i: nat, window: int)
    requires i < |calls|
  {
    i == 0 || calls[i].time - calls[i - 1].time >= window
  }

  /** The first call of the burst that call `i` belongs to: the last one after a gap. */
  function BurstStart(calls: seq<Call>, i: nat, window: int): (j: nat)
    requires i < |calls|
    ensures j <= i && AfterGap(calls, j, window)
    ensures forall k :: j < k <= i ==> !AfterGap(calls, k, window)
  {
    if AfterGap(calls, i, window) then i else BurstStart(calls, i - 1, window)
  }

  /** The counter is the position in the burst. */
  lemma {:induction false} CounterIsBurstPosition(calls: seq<Call>, i: nat, window: int)
    requires i < |calls|
    ensures Incremented(KeyAfter(calls, i, window), calls[i].time) == i - BurstStart(calls, i, window) + 1
  {
    if i > 0 {
      CounterIsBurstPosition(calls, i - 1, window);
      assert KeyAfter(calls, i, window) == Touched(KeyAfter(calls, i - 1, window), calls[i - 1].time, window);
    }
  }

  /** Exact behaviour: a call is allowed when its position in the current burst is within its own limit. */
  lemma AllowedIff(calls: seq<Call>, i: nat, window: int)
    requires i < |calls|
    ensures Allowed(calls, i, window) <==> i - BurstStart(calls, i, window) < calls[i].limit
  {
    CounterIsBurstPosition(calls, i, window);
  }

  /** How many of the calls `begin..end` were allowed with a limit of at most `bound`. */
  function AllowedWithin(calls: seq<Call>, begin: nat, end: nat, bound: int, window: int): nat
    requires begin <= end <= |calls|
  {
    if begin == end then 0
    else AllowedWithin(calls, begin, end - 1, bound, window) +
         (if Allowed(calls, end - 1, window) && calls[end - 1].limit <= bound then 1 else 0)
  }

  lemma {:induction false} SameBurst(calls: seq<Call>, a: nat, b: nat, window: int)
    requires InOrder(calls) && a <= b < |calls| && calls[b].time - calls[a].time < window
    ensures BurstStart(calls, b, window) == BurstStart(calls, a, window)
    decreases b
  {
    if a < b {
      SameBurst(calls, a, b - 1, window);
    }
  }

  lemma {:induction false} WindowBoundFrom(calls: seq<Call>, begin: nat, end: nat, bound: int, window: int)
    requires InOrder(calls) && begin < end <= |calls| && calls[end - 1].time - calls[begin].time < window
    ensures AllowedWithin(calls, begin, end, bound, window) <= end - begin
    ensures bound >= 0 ==> AllowedWithin(calls, begin, end, bound, window) <= bound
    ensures bound < 0 ==> AllowedWithin(calls, begin, end, bound, window) == 0
    decreases end
  {
    AllowedIff(calls, end - 1, window);
    SameBurst(calls, begin, end - 1, window);
    if end - 1 > begin {
      WindowBoundFrom(calls, begin, end - 1, bound, window);
    } else {
      assert AllowedWithin(calls, begin, begin, bound, window) == 0;
    }
  }

  /** Whatever limits the calls carry: any interval shorter than the window contains at most L allowed
      calls whose limit is at most L. */
  lemma WindowBound(calls: seq<Call>, begin: nat, end: nat, bound: nat, window: int)
    requires InOrder(calls) && begin <= end <= |calls|
    requires begin < end ==> calls[end - 1].time - calls[begin].time < window
    ensures AllowedWithin(calls, begin, end, bound, window) <= bound
  {
    if begin < end {
      WindowBoundFrom(calls, begin, end, bound, window);
    }
  }

  /** After a silent window the next call is allowed exactly when its limit is positive. */
  lemma GapResets(calls: seq<Call>, i: nat, window: int)
    requires i < |calls| && AfterGap(calls, i, window)
    ensures Allowed(calls, i, window) <==> calls[i].limit >= 1
  {
    AllowedIff(calls, i, window);
  }

  /** With one fixed limit, a refused caller stays refused until such a silence. */
  lemma {:induction false} RefusedUntilGap(calls: seq<Call>, i: nat, j: nat, window: int)
    requires i <= j < |calls| && calls[i].limit == calls[j].limit
    requires !Allowed(calls, i, window)
    requires forall k :: i < k <= j ==> !AfterGap(calls, k, window)
    ensures !Allowed(calls, j, window)
  {
    AllowedIff(calls, i, window);
    AllowedIff(calls, j, window);
    BurstGrows(calls, i, j, window);
  }

  lemma {:induction false} BurstGrows(calls: seq<Call>, i: nat, j: nat, window: int)
    requires i <= j < |calls|
    requires forall k :: i < k <= j ==> !AfterGap(calls, k, window)
    ensures BurstStart(calls, j, window) == BurstStart(calls, i, window)
    decreases j
  {
    if i < j {
      BurstGrows(calls, i, j - 1, window);
    }
  }

  /** `n` calls, one every `period`. */
  function Steady(n: nat, period: int, limit: int): seq<Call> {
    seq(n, i => Call(i * period, limit))
  }

  /** It is no sliding-window counter: a steady caller with a period below the window gets its first
      `limit` calls and no other, however low its rate. */
  lemma {:induction false} SteadyCallerStarves(n: nat, period: int, limit: int, window: int, i: nat)
    requires i < n && 0 <= period < window
    ensures Allowed(Steady(n, period, limit), i, window) <==> i < limit
  {
    var calls := Steady(n, period, limit);
    assert forall k :: 0 < k < n ==> calls[k].time - calls[k - 1].time == period by {
      forall k | 0 < k < n ensures k * period - (k - 1) * period == period {}
    }
    BurstGrows(calls, 0, i, window);
    AllowedIff(calls, i, window);
  }
}
