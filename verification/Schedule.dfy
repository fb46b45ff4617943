/**
 Clock-aligned interval schedules. Instants and durations are whole microseconds (instants count from the Unix
 epoch), as the source's datetimes and timedeltas do.
 */
module Schedule {
  import opened Base

  const MINUTE := 60_000_000
  const HOUR := 60 * MINUTE
  const GRACE_MAX := 2 * MINUTE

  datatype Schedule = Schedule(cadence: Option<int>, minInterval: int, warnStaleness: int, hardMaxStaleness: int)

  /** The JSON form. A seed file may give part-minutes; what is stored has whole ones. */
  datatype Seed = Seed(cadenceMinutes: Option<real>, minIntervalMinutes: Option<real>, warnHours: Option<real>, hardMaxHours: Option<real>)

  datatype ScheduleError = BelowFloor | NeedsCadence | CadenceBelowFloor | WarnExceedsHardMax | HardMaxBelowCadence

  predicate IsSlot(t: int, cadence: int) requires 0 < cadence { t % cadence == 0 }

  /** `timedelta / 10`: the quotient rounded to the nearest microsecond, ties to even. */
  function Tenth(x: int): int {
    var q, r := x / 10, x % 10;
    if 5 < r || (r == 5 && q % 2 == 1) then q + 1 else q
  }

  function Grace(minInterval: int): int {
    if GRACE_MAX <= Tenth(minInterval) then GRACE_MAX else Tenth(minInterval)
  }

  /** How long the politeness test makes a source wait after an attempt. */
  function Polite(minInterval: int): int { minInterval - Grace(minInterval) }

  function NextAfter(cadence: int, when: int): int
    requires 0 < cadence
  {
    cadence * (when / cadence + 1)
  }

  function NextDue(cadence: int, minInterval: int, now: int): int
    requires 0 < cadence
  {
    NextAfter(cadence, now + minInterval - Grace(minInterval))
  }

  // ---------------------------------------------------------------------------------------------
  // Slots
  // ---------------------------------------------------------------------------------------------

  lemma {:induction false} MultipleOf(c: int, k: int)
    requires 0 < c
    ensures (c * k) % c == 0 && (c * k) / c == k
  {
    var q, r := (c * k) / c, (c * k) % c;
    assert c * k == c * q + r && 0 <= r < c;
    assert c * (k - q) == r;
    if k - q >= 1 {
      Scaled(c, 1, k - q);
    } else if k - q <= -1 {
      Scaled(c, k - q, -1);
    }
  }

  lemma {:induction false} Scaled(c: int, a: int, b: int)
    requires 0 < c && a <= b
    ensures c * a <= c * b
  {
    assert c * b - c * a == c * (b - a);
  }

  /** The next slot is the least multiple of the cadence strictly after the given instant. */
  lemma {:induction false} NextAfterIsLeastSlot(cadence: int, when: int, t: int)
    requires 0 < cadence
    ensures IsSlot(NextAfter(cadence, when), cadence)
    ensures when < NextAfter(cadence, when) <= when + cadence
    ensures IsSlot(t, cadence) && when < t ==> NextAfter(cadence, when) <= t
  {
    var n := when / cadence;
    assert when == cadence * n + when % cadence;
    MultipleOf(cadence, n + 1);
    assert cadence * (n + 1) == cadence * n + cadence;
    if IsSlot(t, cadence) && when < t {
      var k := t / cadence;
      assert t == cadence * k;
      if k <= n {
        Scaled(cadence, k, n);
      } else {
        Scaled(cadence, n + 1, k);
      }
    }
  }

  /** From a slot the next one is exactly one cadence on. */
  lemma {:induction false} SlotAfterSlot(cadence: int, t: int)
    requires 0 < cadence && IsSlot(t, cadence)
    ensures NextAfter(cadence, t) == t + cadence
  {
    assert t == cadence * (t / cadence);
    assert cadence * (t / cadence + 1) == cadence * (t / cadence) + cadence;
  }

  /** The preview lists consecutive slots and leaves none out. */
  method Preview(cadence: int, n: nat, after: int) returns (out: seq<int>)
    requires 0 < cadence
    ensures |out| == n
    ensures forall i :: 0 <= i < n ==> IsSlot(out[i], cadence) && after < out[i]
    ensures forall i :: 0 <= i < n ==> out[i] == NextAfter(cadence, after) + i * cadence
    ensures forall t :: n > 0 && IsSlot(t, cadence) && after < t <= out[n - 1] ==> t in out
  {
    out := [];
    var cur := after;
    for k := 0 to n
      invariant |out| == k && cur == (if k == 0 then after else out[k - 1])
      invariant forall i :: 0 <= i < k ==> IsSlot(out[i], cadence) && after < out[i] <= cur
      invariant forall i :: 0 <= i < k ==> out[i] == NextAfter(cadence, after) + i * cadence
      invariant forall t :: IsSlot(t, cadence) && after < t <= cur ==> t in out
    {
      NextAfterIsLeastSlot(cadence, cur, 0);
      ghost var next := NextAfter(cadence, cur);
      if 0 < k {
        SlotAfterSlot(cadence, cur);
        assert k * cadence == (k - 1) * cadence + cadence;
      }
      forall t | IsSlot(t, cadence) && cur < t <= next ensures t == next {
        NextAfterIsLeastSlot(cadence, cur, t);
      }
      ghost var before := out;
      cur := NextAfter(cadence, cur);
      out := out + [cur];
      forall t | IsSlot(t, cadence) && after < t <= cur ensures t in out {
        if t <= (if k == 0 then after else before[k - 1]) {
          assert t in before;
        } else {
          assert t == cur && out[k] == t;
        }
      }
    }
  }

  // ---------------------------------------------------------------------------------------------
  // Politeness grace
  // ---------------------------------------------------------------------------------------------

  /** Rounding takes the tenth up. */
  predicate RoundsUp(x: int) { 5 < x % 10 || (x % 10 == 5 && (x / 10) % 2 == 1) }

  /**
   The grace is documented as never more than a tenth of the interval. It exceeds a tenth exactly when the tenth
   is below two minutes and is rounded up to a whole microsecond, and then by at most half a microsecond. It is never
   further below: a tenth, to the nearest microsecond, of intervals up to twenty minutes, and two minutes beyond.
   */
  lemma {:induction false} GraceWithinTenthIff(minInterval: int)
    requires 0 <= minInterval
    ensures 10 * Grace(minInterval) <= minInterval <==> !RoundsUp(minInterval) || GRACE_MAX <= minInterval / 10
    ensures 10 * Grace(minInterval) <= minInterval + 5
    ensures minInterval < 20 * MINUTE ==> minInterval - 5 <= 10 * Grace(minInterval)
    ensures 20 * MINUTE <= minInterval ==> Grace(minInterval) == 2 * MINUTE
    ensures 0 <= Grace(minInterval) <= GRACE_MAX && 0 <= Polite(minInterval) <= minInterval
  {
  }

  /** Whole minutes, which is all the API accepts, keep the documented bound. */
  lemma {:induction false} WholeMinutesKeepTheGrace(minutes: nat)
    ensures 10 * Grace(minutes * MINUTE) <= minutes * MINUTE
  {
    var tenth := minutes * 6_000_000;
    assert minutes * MINUTE == 10 * tenth;
    GraceWithinTenthIff(minutes * MINUTE);
  }

  // ---------------------------------------------------------------------------------------------
  // Seeds
  // ---------------------------------------------------------------------------------------------

  function RoundHalfEven(x: real): int {
    var q := x.Floor;
    if x - q as real > 0.5 || (x - q as real == 0.5 && q % 2 == 1) then q + 1 else q
  }

  /** `timedelta(hours=...)`, with the default for a missing entry. */
  function FromHours(h: Option<real>, default: real): int {
    RoundHalfEven((if h.Some? then h.value else default) * HOUR as real)
  }

  function ToHours(x: int): Option<real> { Some(x as real / HOUR as real) }

  /** `timedelta(minutes=...)`. */
  function FromMinutes(m: real): int { RoundHalfEven(m * MINUTE as real) }

  /** `int(total_seconds() // 60)`. */
  function ToMinutes(x: int): real { (x / MINUTE) as real }

  function FromSeed(d: Seed): Schedule {
    Schedule(
      if d.cadenceMinutes.Some? && d.cadenceMinutes.value != 0.0 then Some(FromMinutes(d.cadenceMinutes.value)) else None,
      FromMinutes(if d.minIntervalMinutes.Some? then d.minIntervalMinutes.value else 30.0),
      FromHours(d.warnHours, 6.0),
      FromHours(d.hardMaxHours, 12.0))
  }

  function ToJson(s: Schedule): Seed {
    Seed(
      if s.cadence.Some? && s.cadence.value != 0 then Some(ToMinutes(s.cadence.value)) else None,
      Some(ToMinutes(s.minInterval)),
      ToHours(s.warnStaleness),
      ToHours(s.hardMaxStaleness))
  }

  lemma {:induction false} HoursSurvive(x: int, default: real)
    ensures FromHours(ToHours(x), default) == x
  {
    assert x as real / HOUR as real * HOUR as real == x as real;
  }

  /** Durations are rounded to the nearest microsecond, and ties to the even one. */
  lemma {:induction false} RoundsToNearest(x: real)
    ensures var r := RoundHalfEven(x);
            r as real - 0.5 <= x <= r as real + 0.5 && (x == r as real - 0.5 || x == r as real + 0.5 ==> r % 2 == 0)
  {
    assert x.Floor as real <= x < x.Floor as real + 1.0;
  }

  /** Through the JSON form an interval loses its part-minute. */
  lemma {:induction false} MinutesFloor(x: int)
    ensures FromMinutes(ToMinutes(x)) == x / MINUTE * MINUTE == x - x % MINUTE
    ensures ToMinutes(x / MINUTE * MINUTE) == ToMinutes(x)
  {
    var n := x / MINUTE;
    assert n as real * MINUTE as real == (n * MINUTE) as real;
    assert n * MINUTE / MINUTE == n;
  }

  /** A schedule survives the round trip through its JSON form exactly when its minutes are whole. */
  lemma {:induction false} RoundTripIff(s: Schedule)
    ensures FromSeed(ToJson(s)) == s
       <==> s.minInterval % MINUTE == 0 && (s.cadence.Some? ==> s.cadence.value != 0 && s.cadence.value % MINUTE == 0)
  {
    HoursSurvive(s.warnStaleness, 6.0);
    HoursSurvive(s.hardMaxStaleness, 12.0);
    MinutesFloor(s.minInterval);
    if s.cadence.Some? {
      MinutesFloor(s.cadence.value);
    }
    hide FromHours, ToHours, FromMinutes;
  }

  /** What a seed leaves out: half an hour between contacts, stale from six hours on and intolerably so from twelve; no cadence. */
  lemma {:induction false} SeedDefaults()
    ensures FromSeed(Seed(None, None, None, None)) == Schedule(None, 30 * MINUTE, 6 * HOUR, 12 * HOUR)
  {
    assert (30 * MINUTE) as real == 30.0 * MINUTE as real && (6 * HOUR) as real == 6.0 * HOUR as real && (12 * HOUR) as real == 12.0 * HOUR as real;
  }

  /** A seed of thirty and a half minutes runs every thirty and a half minutes, but is stored as thirty. */
  lemma {:induction false} HalfMinuteIsLost(d: Seed)
    requires d.cadenceMinutes == Some(30.5)
    ensures FromSeed(d).cadence == Some(1_830_000_000)
    ensures ToJson(FromSeed(d)).cadenceMinutes == Some(30.0)
    ensures FromSeed(ToJson(FromSeed(d))).cadence == Some(1_800_000_000)
  {
    hide FromHours, ToHours;
    assert 30.5 * MINUTE as real == 1_830_000_000.0;
    MinutesFloor(1_830_000_000);
  }

  /**
   A seed whose minimum interval is a hair above a quarter of an hour is valid for every adapter with that floor, and
   its grace is more than a tenth of it.
   */
  lemma {:induction false} GraceExceedsATenth(d: Seed)
    requires d.minIntervalMinutes == Some(15.0000001)
    ensures FromSeed(d).minInterval == 900_000_006
    ensures 15 * MINUTE <= FromSeed(d).minInterval && 10 * Grace(FromSeed(d).minInterval) > FromSeed(d).minInterval
  {
    hide FromHours;
    assert 15.0000001 * MINUTE as real == 900_000_006.0;
    GraceWithinTenthIff(900_000_006);
  }

  // ---------------------------------------------------------------------------------------------
  // Validation of interval schedules
  // ---------------------------------------------------------------------------------------------

  /** The first complaint, in the order the checks run. */
  method Validate(s: Schedule, floor: int) returns (error: Option<ScheduleError>)
    ensures error == None <==>
              && floor <= s.minInterval && s.cadence.Some? && s.cadence.value != 0 && floor <= s.cadence.value
              && s.warnStaleness <= s.hardMaxStaleness && s.cadence.value <= s.hardMaxStaleness
    ensures error == Some(BelowFloor) <==> s.minInterval < floor
    ensures error == Some(NeedsCadence) <==> floor <= s.minInterval && (s.cadence.None? || s.cadence.value == 0)
    ensures error == Some(CadenceBelowFloor) <==> floor <= s.minInterval && s.cadence.Some? && s.cadence.value != 0 && s.cadence.value < floor
    ensures error == Some(WarnExceedsHardMax) <==>
              && floor <= s.minInterval && s.cadence.Some? && s.cadence.value != 0 && floor <= s.cadence.value
              && s.hardMaxStaleness < s.warnStaleness
  {
    if s.minInterval < floor {
      return Some(BelowFloor);
    }
    if s.cadence.None? || s.cadence.value == 0 {
      return Some(NeedsCadence);
    }
    if s.cadence.value < floor {
      return Some(CadenceBelowFloor);
    }
    if s.warnStaleness > s.hardMaxStaleness {
      return Some(WarnExceedsHardMax);
    }
    if s.hardMaxStaleness < s.cadence.value {
      return Some(HardMaxBelowCadence);
    }
    error := None;
  }
}
