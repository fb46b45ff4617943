/**
 The token bucket in front of the enrichment APIs, over exact reals. A caller's every look at the bucket is one
 attempt under the lock: it refills for the time passed, then grants or says how long to sleep.
 */
module RateLimit {
  import opened Base

  datatype Bucket = Bucket(rate: real, capacity: real, tokens: real, updated: real)

  /** One look at the bucket at instant `now` for `n` tokens. */
  datatype Attempt = Attempt(now: real, n: real)

  ghost predicate BucketOk(b: Bucket) {
    0.0 < b.rate && 0.0 <= b.tokens <= b.capacity
  }

  function Refilled(b: Bucket, now: real): real {
    var t := b.tokens + (now - b.updated) * b.rate;
    if b.capacity <= t then b.capacity else t
  }

  predicate Grants(b: Bucket, a: Attempt) { Refilled(b, a.now) >= a.n }

  function After(b: Bucket, a: Attempt): Bucket {
    b.(tokens := if Grants(b, a) then Refilled(b, a.now) - a.n else Refilled(b, a.now), updated := a.now)
  }

  function Need(b: Bucket, a: Attempt): real
    requires b.rate != 0.0
  {
    (a.n - Refilled(b, a.now)) / b.rate
  }

  /** `per_window`: as many calls per window, with a burst of at most ten. */
  function PerWindow(calls: nat, window: real, now: real): (b: Bucket)
    requires 0 < calls && 0.0 < window
    ensures BucketOk(b) && b.rate * window == calls as real && 1.0 <= b.capacity <= 10.0
  {
    var burst := if calls < 10 then calls else 10;
    Bucket(calls as real / window, burst as real, burst as real, now)
  }

  /** The bucket after a history of attempts by any number of callers. */
  function History(b: Bucket, h: seq<Attempt>): Bucket {
    if h == [] then b else After(History(b, h[..|h| - 1]), h[|h| - 1])
  }

  /** The clock never goes back, and nobody asks for less than nothing. */
  ghost predicate Monotone(b: Bucket, h: seq<Attempt>) {
    && (forall i :: 0 <= i < |h| ==> b.updated <= h[i].now && 0.0 <= h[i].n)
    && (forall i, j :: 0 <= i < j < |h| ==> h[i].now <= h[j].now)
  }

  lemma {:induction false} RefillBounds(b: Bucket, now: real)
    requires BucketOk(b) && b.updated <= now
    ensures b.tokens <= Refilled(b, now) <= b.capacity
    ensures Refilled(b, now) <= b.tokens + (now - b.updated) * b.rate
  {
    assert 0.0 <= (now - b.updated) * b.rate;
  }

  /** Whatever happens, the level stays between empty and full. */
  lemma {:induction false} LevelStaysInRange(b: Bucket, h: seq<Attempt>)
    requires BucketOk(b) && Monotone(b, h)
    ensures var b' := History(b, h);
            && BucketOk(b') && b'.rate == b.rate && b'.capacity == b.capacity
            && b'.updated == if h == [] then b.updated else h[|h| - 1].now
  {
    if h != [] {
      var init := h[..|h| - 1];
      LevelStaysInRange(b, init);
      RefillBounds(History(b, init), h[|h| - 1].now);
    }
  }

  /** Tokens granted by the attempts from `i` on. */
  function Granted(b: Bucket, h: seq<Attempt>, i: nat): real
    requires i <= |h|
    decreases |h|
  {
    if i == |h| then 0.0
    else
      var init, last := h[..|h| - 1], h[|h| - 1];
      Granted(b, init, i) + (if Grants(History(b, init), last) then last.n else 0.0)
  }

  /** The most a stretch of the history may hand out: one full bucket and what flows in. */
  function Allowance(b: Bucket, from: real, to: real): real { b.capacity + b.rate * (to - from) }

  /** One attempt moves tokens from the bucket to its caller and creates none. */
  lemma {:induction false} AttemptAccounts(b: Bucket, a: Attempt)
    requires BucketOk(b) && b.updated <= a.now
    ensures After(b, a).tokens + (if Grants(b, a) then a.n else 0.0) == Refilled(b, a.now)
    ensures Refilled(b, a.now) <= Allowance(b, a.now, a.now)
  {
    RefillBounds(b, a.now);
  }

  lemma {:induction false} Scaled(r: real, x: real, y: real)
    requires 0.0 <= r && x <= y
    ensures r * x <= r * y
  {
    assert 0.0 <= r * (y - x);
  }

  /** Between two attempts the level rises by at most what flows in. */
  lemma {:induction false} AllowanceGrows(b: Bucket, b': Bucket, from: real, to: real, spent: real)
    requires BucketOk(b) && b.updated <= to && b'.rate == b.rate && b'.capacity == b.capacity
    requires b.tokens + spent <= Allowance(b', from, b.updated)
    ensures Refilled(b, to) + spent <= Allowance(b', from, to)
  {
    RefillBounds(b, to);
    var x, y := b.updated - from, to - b.updated;
    assert b.rate * (x + y) == b.rate * x + b.rate * y;
    assert (to - b.updated) * b.rate == b.rate * y;
    assert x + y == to - from;
  }

  lemma {:induction false} NothingGranted(b: Bucket, h: seq<Attempt>)
    ensures Granted(b, h, |h|) == 0.0
  {
  }

  lemma {:induction false} LevelPlusGrants(b: Bucket, h: seq<Attempt>, i: nat)
    requires BucketOk(b) && Monotone(b, h) && i < |h|
    ensures History(b, h).tokens + Granted(b, h, i) <= Allowance(b, h[i].now, h[|h| - 1].now)
    decreases |h|
  {
    var init, last := h[..|h| - 1], h[|h| - 1];
    var before := History(b, init);
    LevelStaysInRange(b, init);
    AttemptAccounts(before, last);
    assert before.updated <= last.now;
    hide Allowance, Refilled, Grants;
    if i == |h| - 1 {
      NothingGranted(b, init);
      SameAllowance(before, b, last.now);
    } else {
      LevelPlusGrants(b, init, i);
      AllowanceGrows(before, b, h[i].now, last.now, Granted(b, init, i));
    }
  }

  lemma {:induction false} SameAllowance(a: Bucket, b: Bucket, t: real)
    requires a.rate == b.rate && a.capacity == b.capacity
    ensures Allowance(a, t, t) == Allowance(b, t, t)
  {
  }

  /**
   The rate bound: the grants of any stretch of the history, whoever got them, total at most one full bucket plus
   the rate times the length of the stretch.
   */
  lemma {:induction false} GrantsAreBounded(b: Bucket, h: seq<Attempt>, i: nat)
    requires BucketOk(b) && Monotone(b, h) && i < |h|
    ensures Granted(b, h, i) <= Allowance(b, h[i].now, h[|h| - 1].now) == b.capacity + b.rate * (h[|h| - 1].now - h[i].now)
  {
    hide Granted, History, Monotone;
    LevelPlusGrants(b, h, i);
    LevelStaysInRange(b, h);
  }

  /** Over one window the publisher's limit may be exceeded by the burst, and by no more. */
  lemma {:induction false} WindowBound(calls: nat, window: real, start: real, h: seq<Attempt>, i: nat)
    requires 0 < calls && 0.0 < window
    requires Monotone(PerWindow(calls, window, start), h) && i < |h| && h[|h| - 1].now - h[i].now <= window
    ensures Granted(PerWindow(calls, window, start), h, i) <= calls as real + PerWindow(calls, window, start).capacity
    ensures Granted(PerWindow(calls, window, start), h, i) <= calls as real + 10.0
  {
    hide PerWindow, Granted, BucketOk, Monotone;
    var b := PerWindow(calls, window, start);
    GrantsAreBounded(b, h, i);
    RateIsPositive(b);
    Scaled(b.rate, h[|h| - 1].now - h[i].now, window);
  }

  lemma {:induction false} RateIsPositive(b: Bucket)
    requires BucketOk(b)
    ensures 0.0 < b.rate
  {
  }

  // ---------------------------------------------------------------------------------------------
  // The burst comes on top, for every bucket
  // ---------------------------------------------------------------------------------------------

  /** `k` calls at one instant. */
  function AtOnce(k: nat, now: real): seq<Attempt> {
    if k == 0 then [] else AtOnce(k - 1, now) + [Attempt(now, 1.0)]
  }

  function Tick(calls: nat, window: real, start: real, k: nat): real
    requires 0 < calls
  {
    start + k as real * (window / calls as real)
  }

  /** `k` calls, one for every token that flows in. */
  function Paced(calls: nat, window: real, start: real, k: nat): seq<Attempt>
    requires 0 < calls
  {
    if k == 0 then [] else Paced(calls, window, start, k - 1) + [Attempt(Tick(calls, window, start, k), 1.0)]
  }

  lemma {:induction false} BurstDrains(b: Bucket, k: nat)
    requires BucketOk(b) && b.tokens == b.capacity && k as real <= b.capacity
    ensures History(b, AtOnce(k, b.updated)) == b.(tokens := b.capacity - k as real)
    ensures Granted(b, AtOnce(k, b.updated), 0) == k as real
  {
    hide History, Granted, Grants, After, BucketOk;
    if k == 0 {
      NoHistory(b);
    } else {
      BurstDrains(b, k - 1);
      OneMore(b, AtOnce(k - 1, b.updated), Attempt(b.updated, 1.0));
      OneTokenOut(b.(tokens := b.capacity - (k - 1) as real));
    }
  }

  lemma {:induction false} NoHistory(b: Bucket)
    ensures History(b, []) == b && Granted(b, [], 0) == 0.0
  {
  }

  /** A token that is there is handed out at once. */
  lemma {:induction false} OneTokenOut(b: Bucket)
    requires 1.0 <= b.tokens <= b.capacity
    ensures Grants(b, Attempt(b.updated, 1.0)) && After(b, Attempt(b.updated, 1.0)) == b.(tokens := b.tokens - 1.0)
  {
    assert (b.updated - b.updated) * b.rate == 0.0;
    assert Refilled(b, b.updated) == b.tokens;
    hide Refilled;
  }

  lemma {:induction false} TickStep(calls: nat, window: real, start: real, k: nat)
    requires 0 < calls && 0.0 < window && 0 < k
    ensures (Tick(calls, window, start, k) - Tick(calls, window, start, k - 1)) * (calls as real / window) == 1.0
    ensures Tick(calls, window, start, k - 1) < Tick(calls, window, start, k)
    ensures Tick(calls, window, start, 0) == start && Tick(calls, window, start, calls) == start + window
  {
    var d := window / calls as real;
    assert k as real * d == (k - 1) as real * d + d;
    assert d * calls as real == window;
    assert d * (calls as real / window) == 1.0;
    assert calls as real * d == window;
  }

  lemma {:induction false} OneMore(b: Bucket, init: seq<Attempt>, last: Attempt)
    ensures History(b, init + [last]) == After(History(b, init), last)
    ensures Granted(b, init + [last], 0) == Granted(b, init, 0) + (if Grants(History(b, init), last) then last.n else 0.0)
  {
    assert (init + [last])[..|init|] == init;
    hide After, Grants;
  }

  /** An empty bucket into which one token has flowed grants one and is empty again. */
  lemma {:induction false} OneTokenIn(b: Bucket, now: real)
    requires b.tokens == 0.0 && (now - b.updated) * b.rate == 1.0 && 1.0 <= b.capacity
    ensures Grants(b, Attempt(now, 1.0)) && After(b, Attempt(now, 1.0)) == b.(updated := now)
  {
    assert Refilled(b, now) == 1.0;
    hide Refilled;
  }

  lemma {:induction false} PacedAt(calls: nat, window: real, start: real, k: nat)
    requires 0 < calls
    ensures |Paced(calls, window, start, k)| == k
    ensures forall i :: 0 <= i < k ==> Paced(calls, window, start, k)[i] == Attempt(Tick(calls, window, start, i + 1), 1.0)
  {
    hide Tick;
    if k != 0 {
      PacedAt(calls, window, start, k - 1);
    }
  }

  /** One more call of the paced stretch. */
  lemma {:induction false} PacedStep(b: Bucket, calls: nat, window: real, start: real, k: nat)
    requires 0 < calls && 0.0 < window && 0 < k && 1.0 <= b.capacity && b.rate == calls as real / window
    requires b.tokens == 0.0 && b.updated == Tick(calls, window, start, k - 1)
    ensures var a := Attempt(Tick(calls, window, start, k), 1.0);
            Grants(b, a) && After(b, a) == b.(updated := Tick(calls, window, start, k))
  {
    hide Tick, Grants, After;
    TickStep(calls, window, start, k);
    OneTokenIn(b, Tick(calls, window, start, k));
  }

  lemma {:induction false} PacedGranted(b: Bucket, burst: seq<Attempt>, calls: nat, window: real, start: real, k: nat)
    requires 0 < calls && 0.0 < window && b.rate == calls as real / window && 1.0 <= b.capacity
    requires History(b, burst) == b.(tokens := 0.0, updated := Tick(calls, window, start, 0))
    ensures var h := burst + Paced(calls, window, start, k);
            && History(b, h) == b.(tokens := 0.0, updated := Tick(calls, window, start, k))
            && Granted(b, h, 0) == Granted(b, burst, 0) + k as real
  {
    hide Tick, History, Granted, Grants, After;
    if k == 0 {
      assert burst + Paced(calls, window, start, 0) == burst;
    } else {
      PacedGranted(b, burst, calls, window, start, k - 1);
      var init, last := burst + Paced(calls, window, start, k - 1), Attempt(Tick(calls, window, start, k), 1.0);
      assert burst + Paced(calls, window, start, k) == init + [last];
      hide Paced;
      PacedStep(History(b, init), calls, window, start, k);
      OneMore(b, init, last);
    }
  }

  lemma {:induction false} TicksGrow(calls: nat, window: real, start: real, i: nat, j: nat)
    requires 0 < calls && 0.0 < window && i <= j
    ensures start <= Tick(calls, window, start, i) <= Tick(calls, window, start, j)
  {
    var d := window / calls as real;
    Scaled(d, 0.0, i as real);
    Scaled(d, i as real, j as real);
    assert i as real * d == d * i as real && j as real * d == d * j as real;
  }

  /** The burst comes at the start, the last paced call at the end of the window, and none out of order. */
  lemma {:induction false} BurstIsOnTime(calls: nat, window: real, start: real, k: nat)
    requires 0 < calls && 0.0 < window && 0 < k
    ensures var h := AtOnce(k, start) + Paced(calls, window, start, calls);
            && |h| == k + calls && h[0].now == start && h[|h| - 1].now == start + window
            && (forall i :: 0 <= i < |h| ==> start <= h[i].now && h[i].n == 1.0)
            && (forall i, j :: 0 <= i < j < |h| ==> h[i].now <= h[j].now)
  {
    hide Tick, AtOnce, Paced;
    AtOnceAt(k, start);
    PacedAt(calls, window, start, calls);
    TickStep(calls, window, start, 1);
    var h := AtOnce(k, start) + Paced(calls, window, start, calls);
    forall i, j | 0 <= i <= j < |h| ensures start <= h[i].now <= h[j].now && h[i].n == 1.0 {
      TicksGrow(calls, window, start, if i < k then 0 else i - k + 1, if j < k then 0 else j - k + 1);
    }
  }

  lemma {:induction false} AtOnceAt(k: nat, now: real)
    ensures |AtOnce(k, now)| == k && forall i :: 0 <= i < k ==> AtOnce(k, now)[i] == Attempt(now, 1.0)
  {
    if k != 0 {
      AtOnceAt(k - 1, now);
    }
  }

  /**
   The limit of so many calls per window does not hold for any bucket: from a full bucket, a burst at once and then
   one call for every token that flows in are all granted, so the bound above is reached.
   */
  lemma {:induction false} BurstComesOnTop(calls: nat, window: real, start: real) returns (h: seq<Attempt>)
    requires 0 < calls && 0.0 < window
    ensures h != [] && h[0].now == start && h[|h| - 1].now == start + window && Monotone(PerWindow(calls, window, start), h)
    ensures forall i :: 0 <= i < |h| ==> h[i].n == 1.0
    ensures Granted(PerWindow(calls, window, start), h, 0) == calls as real + PerWindow(calls, window, start).capacity
    ensures Granted(PerWindow(calls, window, start), h, 0) == calls as real + (if calls < 10 then calls as real else 10.0)
  {
    var b := PerWindow(calls, window, start);
    var k := if calls < 10 then calls else 10;
    assert b.capacity == k as real;
    BurstDrains(b, k);
    TickStep(calls, window, start, 1);
    hide History, Granted, Grants, AtOnce, Paced;
    PacedGranted(b, AtOnce(k, start), calls, window, start, calls);
    h := AtOnce(k, start) + Paced(calls, window, start, calls);
    hide Tick;
    BurstIsOnTime(calls, window, start, k);
  }

  /** A request larger than the bucket is never granted, however long it waits. */
  lemma {:induction false} TooLargeNeverGranted(b: Bucket, h: seq<Attempt>, a: Attempt)
    requires BucketOk(b) && Monotone(b, h) && History(b, h).updated <= a.now && b.capacity < a.n
    ensures !Grants(History(b, h), a)
  {
    LevelStaysInRange(b, h);
    RefillBounds(History(b, h), a.now);
  }

  lemma {:induction false} SleepFills(level: real, n: real, rate: real, d: real)
    requires 0.0 < rate && (n - level) / rate <= d
    ensures n <= level + d * rate
  {
    var need := (n - level) / rate;
    assert need * rate == n - level;
    Scaled(rate, need, d);
    assert rate * need == need * rate && rate * d == d * rate;
  }

  /** Having slept what it was told, a sole caller is granted at the next look. */
  lemma {:induction false} OneSleepSuffices(b: Bucket, a: Attempt, wake: real)
    requires BucketOk(b) && b.updated <= a.now && a.n <= b.capacity && !Grants(b, a)
    requires a.now + Need(b, a) <= wake
    ensures 0.0 < Need(b, a) && Grants(After(b, a), Attempt(wake, a.n))
  {
    var level := Refilled(b, a.now);
    SleepFills(level, a.n, b.rate, wake - a.now);
    assert 0.0 < (a.n - level) / b.rate;
  }

  class TokenBucket {
    const rate: real
    const capacity: real
    var tokens: real
    var updated: real

    constructor (rate: real, burst: nat, now: real)
      requires 0.0 < rate
      ensures Value() == Bucket(rate, burst as real, burst as real, now) && BucketOk(Value())
    {
      this.rate, this.capacity := rate, burst as real;
      tokens, updated := burst as real, now;
    }

    function Value(): Bucket
      reads this
    {
      Bucket(rate, capacity, tokens, updated)
    }

    /** The locked section: refill, then take the tokens or leave them. */
    method TryAcquire(n: real, now: real) returns (granted: bool)
      modifies this
      ensures granted == Grants(old(Value()), Attempt(now, n))
      ensures Value() == After(old(Value()), Attempt(now, n))
    {
      var t := tokens + (now - updated) * rate;
      tokens := if capacity <= t then capacity else t;
      updated := now;
      granted := tokens >= n;
      if granted {
        tokens := tokens - n;
      }
    }

    /**
     A sole caller: look, sleep as long as needed, look again. `wake` says when a sleep that starts at the first
     argument and should last the second really ends. It returns after at most one sleep, having waited for exactly
     the missing tokens.
     */
    method Acquire(n: real, start: real, wake: (real, real) -> real) returns (waited: real, end: real)
      requires BucketOk(Value()) && updated <= start && 0.0 <= n <= capacity
      requires forall t, d :: 0.0 <= d ==> t + d <= wake(t, d)
      modifies this
      ensures BucketOk(Value()) && updated == end
      ensures var b, a := old(Value()), Attempt(start, n);
              if Grants(b, a) then waited == 0.0 && end == start && Value() == After(b, a)
              else waited == Need(b, a) && end == wake(start, waited) && Value() == After(After(b, a), Attempt(end, n))
      ensures old(tokens) + (end - old(updated)) * rate >= n
    {
      var now := start;
      waited := 0.0;
      ghost var b, first := Value(), Attempt(start, n);
      ghost var sleeps := 0;
      RefillBounds(b, start);
      while true
        invariant 0 <= sleeps <= 1
        invariant sleeps == 0 ==> Value() == b && now == start && waited == 0.0
        invariant sleeps == 1 ==> !Grants(b, first) && Value() == After(b, first) && waited == Need(b, first) && now == wake(start, waited)
        decreases 1 - sleeps
      {
        if sleeps == 1 {
          OneSleepSuffices(b, first, now);
          RefillBounds(After(b, first), now);
          assert (now - start) * rate + (start - b.updated) * rate == (now - b.updated) * rate;
        }
        var granted := TryAcquire(n, now);
        if granted {
          return waited, now;
        }
        var need := (n - tokens) / rate;
        OneSleepSuffices(b, first, wake(start, Need(b, first)));
        now := wake(now, need);
        waited := waited + need;
        sleeps := sleeps + 1;
      }
    }
  }
}
