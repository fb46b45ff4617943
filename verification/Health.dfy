/**
 Per-source health: the failure counter, the persisted circuit breaker, and the guards in front of the queue.
 Every function takes the instant of its transaction; `clock` bounds the instants seen so far.
 */
module Health {
  import opened Base
  import opened Schedule

  datatype Breaker = Closed | Open | HalfOpen

  datatype Health = Health(
    failures: nat, breaker: Breaker, openedAt: Option<int>, retryAt: Option<int>,
    lastAttempt: Option<int>, nextDue: Option<int>)

  const THRESHOLD := 3
  const BREAKER_BASE := 30 * MINUTE
  const BREAKER_MAX := 6 * HOUR
  const RETRY_BASE := 10 * MINUTE
  const RETRY_MAX := 2 * HOUR

  const FRESH := Health(0, Closed, None, None, None, None)

  function Pow2(n: nat): (p: nat)
    ensures 1 <= p
  {
    if n == 0 then 1 else 2 * Pow2(n - 1)
  }

  function Min(a: int, b: int): int { if a <= b then a else b }
  function Max(a: int, b: int): int { if a <= b then b else a }

  /** How long the breaker stays open after the given number of failures in a row. */
  function Backoff(failures: nat): int {
    Min(BREAKER_MAX, BREAKER_BASE * Pow2(if failures < THRESHOLD then 0 else failures - THRESHOLD))
  }

  /** How soon a failed source is retried while the breaker stays closed. */
  function Retry(failures: nat, minInterval: int): int
    requires 0 < failures
  {
    Max(Min(RETRY_MAX, RETRY_BASE * Pow2(failures - 1)), minInterval)
  }

  predicate Trips(h: Health) { h.failures + 1 >= THRESHOLD || h.breaker == HalfOpen }

  function AfterSuccess(h: Health, cadence: int, minInterval: int, now: int, fetched: bool): Health
    requires 0 < cadence
  {
    Health(0, Closed, None, None, if fetched then Some(now) else h.lastAttempt, Some(NextDue(cadence, minInterval, now)))
  }

  function AfterDataProblem(h: Health, cadence: int, minInterval: int, now: int, fetched: bool): Health
    requires 0 < cadence
  {
    if fetched then h.(lastAttempt := Some(now), nextDue := Some(NextDue(cadence, minInterval, now))) else h
  }

  function AfterFailure(h: Health, cadence: int, minInterval: int, now: int): Health
    requires 0 < cadence
  {
    var failures := h.failures + 1;
    if Trips(h) then
      Health(failures, Open, Some(if h.openedAt.Some? then h.openedAt.value else now), Some(now + Backoff(failures)),
             Some(now), Some(now + Backoff(failures)))
    else
      h.(failures := failures, lastAttempt := Some(now),
         nextDue := Some(Min(NextAfter(cadence, now), now + Retry(failures, minInterval))))
  }

  /** A fetch, or a cancelled run, notes the contact with the publisher. */
  function AfterContact(h: Health, now: int): Health { h.(lastAttempt := Some(now)) }

  predicate BreakerReady(h: Health, now: int) {
    h.breaker == Open ==> h.retryAt.Some? && h.retryAt.value <= now
  }

  function AfterProbe(h: Health, now: int): Health {
    if h.breaker == Open && BreakerReady(h, now) then h.(breaker := HalfOpen) else h
  }

  // ---------------------------------------------------------------------------------------------
  // Breaker invariant
  // ---------------------------------------------------------------------------------------------

  /** CLOSED means fewer than three failures in a row; OPEN always names a retry no later than six hours on. */
  ghost predicate HealthOk(h: Health, clock: int) {
    && (h.breaker == Closed <==> h.failures < THRESHOLD)
    && (h.lastAttempt.Some? ==> h.lastAttempt.value <= clock)
    && (h.breaker == Open ==>
          && h.retryAt.Some? && h.lastAttempt.Some? && h.openedAt.Some? && h.openedAt.value <= clock
          && h.retryAt.value <= h.lastAttempt.value + BREAKER_MAX)
    && (h.openedAt.Some? ==> h.openedAt.value <= clock)
  }

  datatype HealthEvent =
    | Success(fetched: bool)
    | DataProblem(fetched: bool)
    | Failure
    | Contact
    | Probe

  function HealthStep(h: Health, cadence: int, minInterval: int, now: int, e: HealthEvent): Health
    requires 0 < cadence
  {
    match e
    case Success(fetched) => AfterSuccess(h, cadence, minInterval, now, fetched)
    case DataProblem(fetched) => AfterDataProblem(h, cadence, minInterval, now, fetched)
    case Failure => AfterFailure(h, cadence, minInterval, now)
    case Contact => AfterContact(h, now)
    case Probe => AfterProbe(h, now)
  }

  /** One event with its instant and the schedule then configured. */
  datatype Timed = Timed(now: int, cadence: int, minInterval: int, event: HealthEvent)

  ghost predicate Monotone(clock: int, es: seq<Timed>) {
    && (forall i :: 0 <= i < |es| ==> clock <= es[i].now && 0 < es[i].cadence)
    && (forall i, j :: 0 <= i < j < |es| ==> es[i].now <= es[j].now)
  }

  function HealthRun(h: Health, es: seq<Timed>): Health
    requires forall i :: 0 <= i < |es| ==> 0 < es[i].cadence
  {
    if es == [] then h
    else
      var last := es[|es| - 1];
      HealthStep(HealthRun(h, es[..|es| - 1]), last.cadence, last.minInterval, last.now, last.event)
  }

  lemma {:induction false} BackoffBounds(failures: nat)
    ensures BREAKER_BASE <= Backoff(failures) <= BREAKER_MAX
    ensures Backoff(failures) <= Backoff(failures + 1)
    ensures THRESHOLD + 4 <= failures ==> Backoff(failures) == BREAKER_MAX
  {
    Pow2Grows(4, failures - THRESHOLD);
    if THRESHOLD <= failures {
      assert Pow2(failures + 1 - THRESHOLD) == 2 * Pow2(failures - THRESHOLD);
    }
  }

  lemma {:induction false} Pow2Grows(a: nat, b: int)
    ensures a <= b ==> Pow2(a) <= Pow2(b)
    decreases b - a
  {
    if a < b {
      Pow2Grows(a, b - 1);
    }
  }

  lemma {:induction false} StepKeepsHealthOk(h: Health, cadence: int, minInterval: int, clock: int, now: int, e: HealthEvent)
    requires HealthOk(h, clock) && 0 < cadence && clock <= now
    ensures HealthOk(HealthStep(h, cadence, minInterval, now, e), now)
  {
    BackoffBounds(h.failures + 1);
  }

  lemma {:induction false} RunKeepsHealthOk(h: Health, clock: int, es: seq<Timed>)
    requires HealthOk(h, clock) && Monotone(clock, es)
    ensures HealthOk(HealthRun(h, es), if es == [] then clock else es[|es| - 1].now)
  {
    if es != [] {
      var n := |es| - 1;
      RunKeepsHealthOk(h, clock, es[..n]);
      var last := es[n];
      StepKeepsHealthOk(HealthRun(h, es[..n]), last.cadence, last.minInterval, if n == 0 then clock else es[n - 1].now, last.now, last.event);
    }
  }

  // ---------------------------------------------------------------------------------------------
  // Guards
  // ---------------------------------------------------------------------------------------------

  datatype SourceStatus = Draft | Active | Paused | Disabled

  datatype Refusal = Maintenance | NotActive | TooSoon | BreakerOpen | AlreadyRunning

  datatype Request = Request(status: SourceStatus, maintenance: bool, busy: bool, dryRun: bool, ignoreMinInterval: bool)

  predicate MayRun(q: Request) { q.status == Active || (q.status == Draft && q.dryRun) }

  predicate PoliteNow(h: Health, minInterval: int, now: int) {
    h.lastAttempt.None? || Polite(minInterval) <= now - h.lastAttempt.value
  }

  /** The first guard that refuses, in the order they are asked. */
  function Guard(h: Health, minInterval: int, now: int, q: Request): Option<Refusal> {
    if q.maintenance then Some(Maintenance)
    else if !MayRun(q) then Some(NotActive)
    else if !q.ignoreMinInterval && !PoliteNow(h, minInterval, now) then Some(TooSoon)
    else if !BreakerReady(h, now) then Some(BreakerOpen)
    else if q.busy then Some(AlreadyRunning)
    else None
  }

  /** Six hours, or the politeness interval if that is longer. */
  function GrantedFrom(h: Health, minInterval: int): int
    requires h.lastAttempt.Some?
  {
    h.lastAttempt.value + Max(BREAKER_MAX, minInterval)
  }

  /**
   Progress: whatever happened before, an active source outside maintenance with nothing running is granted a run
   at any time from `GrantedFrom` on, and at once if it was never tried. The breaker locks no source out for good.
   */
  lemma {:induction false} GuardGrantsInTheEnd(clock: int, es: seq<Timed>, minInterval: int, now: int, q: Request)
    requires Monotone(clock, es) && 0 <= minInterval
    requires q.status == Active && !q.maintenance && !q.busy
    requires var h := HealthRun(FRESH, es); h.lastAttempt.Some? ==> GrantedFrom(h, minInterval) <= now
    ensures Guard(HealthRun(FRESH, es), minInterval, now, q) == None
  {
    RunKeepsHealthOk(FRESH, clock, es);
    GraceWithinTenthIff(minInterval);
  }

  /** Not asked to ignore it, no source is ever contacted again within its politeness interval less the grace. */
  lemma {:induction false} GrantsArePolite(h: Health, minInterval: int, now: int, q: Request)
    requires Guard(h, minInterval, now, q) == None && !q.ignoreMinInterval && h.lastAttempt.Some? && 0 <= minInterval
    ensures minInterval - GRACE_MAX <= now - h.lastAttempt.value
    ensures 9 * minInterval <= 10 * (now - h.lastAttempt.value) + 5
  {
    GraceWithinTenthIff(minInterval);
  }

  // ---------------------------------------------------------------------------------------------
  // Refusals
  // ---------------------------------------------------------------------------------------------

  /** How long the breaker stays open after the n-th failure in a row: 30 minutes, 1, 2, 4 and from then on 6 hours. */
  lemma {:induction false} BreakerWaits(h: Health, cadence: int, minInterval: int, t: int)
    requires 0 < cadence && 2 <= h.failures
    ensures var h', n := AfterFailure(h, cadence, minInterval, t), h.failures + 1;
            var wait := if n == 3 then 30 * MINUTE else if n == 4 then HOUR else if n == 5 then 2 * HOUR else if n == 6 then 4 * HOUR else 6 * HOUR;
            h'.breaker == Open && h'.failures == n && h'.retryAt == Some(t + wait) && h'.nextDue == Some(t + wait)
  {
    BackoffBounds(h.failures + 1);
    assert Pow2(0) == 1 && Pow2(1) == 2 && Pow2(2) == 4 && Pow2(3) == 8;
  }

  /** Open, and not to be retried before `until`. */
  ghost predicate LockedUntil(h: Health, until: int) { h.breaker == Open && h.retryAt.Some? && until <= h.retryAt.value }

  lemma {:induction false} LockHolds(h: Health, es: seq<Timed>, t: int, until: int)
    requires LockedUntil(h, until) && until <= t + Backoff(h.failures)
    requires Monotone(t, es) && forall i :: 0 <= i < |es| ==> es[i].now < until && !es[i].event.Success?
    ensures LockedUntil(HealthRun(h, es), until) && h.failures <= HealthRun(h, es).failures
  {
    if es != [] {
      var n := |es| - 1;
      LockHolds(h, es[..n], t, until);
      BackoffGrows(h.failures, HealthRun(h, es[..n]).failures + 1);
      hide Backoff;
    }
  }

  lemma {:induction false} BackoffGrows(a: nat, b: nat)
    requires a <= b
    ensures Backoff(a) <= Backoff(b)
    decreases b
  {
    if a < b {
      BackoffGrows(a, b - 1);
      BackoffBounds(b - 1);
      hide Backoff;
    }
  }

  /**
   The breaker holds: after a third or later failure in a row no run is granted before the retry it named, on whatever
   terms it is asked for and whatever happens in between, short of a success.
   */
  lemma {:induction false} NothingBeforeTheRetry(h: Health, cadence: int, minInterval: int, t: int, es: seq<Timed>, interval: int, now: int, q: Request)
    requires 0 < cadence && 2 <= h.failures && Monotone(t, es)
    requires var until := AfterFailure(h, cadence, minInterval, t).retryAt;
             until.Some? && now < until.value && forall i :: 0 <= i < |es| ==> es[i].now < until.value && !es[i].event.Success?
    ensures Guard(HealthRun(AfterFailure(h, cadence, minInterval, t), es), interval, now, q) != None
  {
    var h' := AfterFailure(h, cadence, minInterval, t);
    LockHolds(h', es, t, h'.retryAt.value);
    hide HealthRun, Backoff;
  }

  /** Once the politeness interval is over, a run is granted exactly from that retry on. */
  lemma {:induction false} RetryIsGranted(h: Health, cadence: int, minInterval: int, t: int, now: int, q: Request)
    requires 0 < cadence && 0 <= minInterval && 2 <= h.failures && q.status == Active && !q.maintenance && !q.busy
    requires q.ignoreMinInterval || minInterval <= now - t
    ensures var h' := AfterFailure(h, cadence, minInterval, t);
            h'.retryAt.Some? && (h'.retryAt.value <= now <==> Guard(h', minInterval, now, q) == None)
  {
    GraceWithinTenthIff(minInterval);
    hide Backoff;
  }

  /** The first two failures in a row leave the breaker closed and plan a retry: after ten, then twenty minutes or the next slot. */
  lemma {:induction false} EarlyRetries(h: Health, cadence: int, minInterval: int, t: int)
    requires 0 < cadence && h.failures < 2 && h.breaker == Closed
    ensures var h', wait := AfterFailure(h, cadence, minInterval, t), (h.failures + 1) * 10 * MINUTE;
            var retry, slot := t + (if wait < minInterval then minInterval else wait), NextAfter(cadence, t);
            h'.breaker == Closed && h'.failures == h.failures + 1 && h'.nextDue == Some(if slot < retry then slot else retry)
  {
    assert Pow2(0) == 1 && Pow2(1) == 2;
    hide NextAfter;
  }

  /** The publisher was contacted. */
  predicate IsContact(e: HealthEvent) {
    e == Failure || e == Contact || e == Success(true) || e == DataProblem(true)
  }

  lemma {:induction false} LastAttemptIsContact(h: Health, cadence: int, minInterval: int, now: int, e: HealthEvent)
    requires 0 < cadence
    ensures HealthStep(h, cadence, minInterval, now, e).lastAttempt == if IsContact(e) then Some(now) else h.lastAttempt
  {
  }

  lemma {:induction false} AttemptsMoveOn(h: Health, es: seq<Timed>, t: int)
    requires Monotone(t, es) && h.lastAttempt.Some? && t <= h.lastAttempt.value
    ensures HealthRun(h, es).lastAttempt.Some? && t <= HealthRun(h, es).lastAttempt.value
  {
    if es != [] {
      var n := |es| - 1;
      AttemptsMoveOn(h, es[..n], t);
      LastAttemptIsContact(HealthRun(h, es[..n]), es[n].cadence, es[n].minInterval, es[n].now, es[n].event);
      hide HealthStep;
    }
  }

  /**
   Politeness over histories: after any contact, whatever follows, no run is granted within the interval less the
   grace, unless it is asked to ignore it.
   */
  lemma {:induction false} NothingWithinTheWait(h: Health, cadence: int, t: int, e: HealthEvent, es: seq<Timed>, minInterval: int, now: int, q: Request)
    requires 0 < cadence && IsContact(e) && Monotone(t, es) && now < t + minInterval - Grace(minInterval) && !q.ignoreMinInterval
    ensures Guard(HealthRun(HealthStep(h, cadence, minInterval, t, e), es), minInterval, now, q) != None
  {
    LastAttemptIsContact(h, cadence, minInterval, t, e);
    AttemptsMoveOn(HealthStep(h, cadence, minInterval, t, e), es, t);
    hide HealthRun, HealthStep, Grace, BreakerReady;
  }

  // ---------------------------------------------------------------------------------------------
  // Slots and politeness agree
  // ---------------------------------------------------------------------------------------------

  /** A slot planned by a success or a data problem is never refused as impolite, then or later. */
  lemma {:induction false} PlannedSlotIsPolite(h: Health, cadence: int, minInterval: int, clock: int, now: int, t: int, fetched: bool, success: bool)
    requires HealthOk(h, clock) && 0 < cadence && clock <= now && (success || fetched)
    requires var h' := if success then AfterSuccess(h, cadence, minInterval, now, fetched)
                       else AfterDataProblem(h, cadence, minInterval, now, fetched);
             h'.nextDue.Some? && h'.nextDue.value <= t
    ensures var h' := if success then AfterSuccess(h, cadence, minInterval, now, fetched)
                      else AfterDataProblem(h, cadence, minInterval, now, fetched);
            PoliteNow(h', minInterval, t)
  {
    NextAfterIsLeastSlot(cadence, now + Polite(minInterval), 0);
  }

  /** After a success the planned slot is granted outright: the breaker is closed and the wait is over. */
  lemma {:induction false} PlannedSlotIsGranted(h: Health, cadence: int, minInterval: int, clock: int, now: int, t: int, fetched: bool, q: Request)
    requires HealthOk(h, clock) && 0 < cadence && clock <= now && NextDue(cadence, minInterval, now) <= t
    requires q.status == Active && !q.maintenance && !q.busy
    ensures Guard(AfterSuccess(h, cadence, minInterval, now, fetched), minInterval, t, q) == None
  {
    PlannedSlotIsPolite(h, cadence, minInterval, clock, now, t, fetched, true);
  }

  /**
   The planned slot is meant to be the first one politeness allows. An earlier slot would have been refused,
   except one that falls exactly when the wait ends.
   */
  lemma {:induction false} EarlierSlotRefusedIff(h: Health, cadence: int, minInterval: int, now: int, t: int)
    requires 0 < cadence && IsSlot(t, cadence) && now < t < NextDue(cadence, minInterval, now)
    ensures !PoliteNow(AfterSuccess(h, cadence, minInterval, now, true), minInterval, t) <==> t != now + Polite(minInterval)
  {
    NextAfterIsLeastSlot(cadence, now + Polite(minInterval), t);
  }

  /** A two-hour source pulled so that its wait ends at two o'clock sharp: the slot at two is polite, but four is planned. */
  lemma {:induction false} EarlierSlotSkipped()
    ensures var now := 2 * HOUR - Polite(30 * MINUTE);
            && now < 2 * HOUR < NextDue(2 * HOUR, 30 * MINUTE, now) == 4 * HOUR
            && PoliteNow(AfterSuccess(FRESH, 2 * HOUR, 30 * MINUTE, now, true), 30 * MINUTE, 2 * HOUR)
  {
    var now := 2 * HOUR - Polite(30 * MINUTE);
    NextAfterIsLeastSlot(2 * HOUR, 2 * HOUR, 4 * HOUR);
    assert now + Polite(30 * MINUTE) == 2 * HOUR;
  }

  /**
   A slot planned by a failure may well be refused as impolite: exactly when the breaker stays closed and the next
   clock-aligned slot is less than the polite wait away, or when it opens for less than the polite wait.
   */
  lemma {:induction false} FailureSlotRefusedIff(h: Health, cadence: int, minInterval: int, now: int)
    requires 0 < cadence && 0 <= minInterval
    ensures var h' := AfterFailure(h, cadence, minInterval, now);
            && h'.nextDue.Some?
            && (!PoliteNow(h', minInterval, h'.nextDue.value) <==>
                  if Trips(h) then Backoff(h.failures + 1) < Polite(minInterval)
                  else NextAfter(cadence, now) < now + Polite(minInterval))
  {
    GraceWithinTenthIff(minInterval);
  }

  /** An hourly source that fails five minutes before the hour is planned for the hour and then refused. */
  lemma {:induction false} FailureSlotRefused()
    ensures var h' := AfterFailure(FRESH, HOUR, HOUR, 55 * MINUTE);
            h'.nextDue == Some(HOUR) && !PoliteNow(h', HOUR, HOUR)
  {
  }
}
