/** The deterministic cycle over the source table: health bookkeeping, guarded enqueue, the plan and the watchdog. */
module Autopilot {
  import opened Base
  import opened Schedule
  import opened Health

  datatype Source = Source(
    status: SourceStatus, pausedUntil: Option<int>, priority: int, cadence: int, minInterval: int, hardMaxStaleness: int,
    health: Health, busy: bool, signals: nat, created: int, lastSuccess: Option<int>, lastFetch: Option<int>, lastChange: Option<int>)

  datatype Trigger = Signal | Scheduled | Watchdog

  datatype Planned = Planned(source: nat, trigger: Trigger)

  predicate Due(s: Source, now: int) {
    0 < s.signals || s.health.nextDue.None? || s.health.nextDue.value <= now
  }

  /** A row of the planning query. */
  predicate Idle(s: Source) { s.status == Active && !s.busy }

  predicate Wanted(s: Source, now: int) { Idle(s) && Due(s, now) }

  /** Past the hard staleness limit, counted from the creation of a source that never succeeded. */
  predicate Stale(s: Source, now: int) {
    now - (if s.lastSuccess.Some? then s.lastSuccess.value else s.created) > s.hardMaxStaleness
  }

  /** `ORDER BY priority, next_due_at NULLS FIRST`. */
  predicate NotAfter(a: Source, b: Source) {
    a.priority < b.priority
    || (a.priority == b.priority
        && (a.health.nextDue.None? || (b.health.nextDue.Some? && a.health.nextDue.value <= b.health.nextDue.value)))
  }

  /** Never planned comes before planned, and sooner before later. */
  predicate Earlier(a: Option<int>, b: Option<int>) { a.None? || (b.Some? && a.value <= b.value) }

  function RequestFor(s: Source, maintenance: bool, dryRun: bool, ignoreMinInterval: bool): Request {
    Request(s.status, maintenance, s.busy, dryRun, ignoreMinInterval)
  }

  /** What the guards say to an ordinary run of the source. */
  function Answer(s: Source, maintenance: bool, now: int): Option<Refusal> {
    Guard(s.health, s.minInterval, now, RequestFor(s, maintenance, false, false))
  }

  /** Every guard lets a run of the source start now. */
  predicate Granted(s: Source, maintenance: bool, now: int) { Answer(s, maintenance, now) == None }

  /** What a guarded enqueue leaves in the source's row; a probe stays half-open even if a run is in the way. */
  function Asked(s: Source, now: int, why: Option<Refusal>): Source {
    var probed := s.(health := AfterProbe(s.health, now));
    if why == None then probed.(busy := true)
    else if why == Some(AlreadyRunning) then probed
    else s
  }

  function AfterEnqueue(s: Source, maintenance: bool, now: int): Source { Asked(s, now, Answer(s, maintenance, now)) }

  // ---------------------------------------------------------------------------------------------
  // One cycle, source by source
  // ---------------------------------------------------------------------------------------------

  /** A pause that has run out. */
  function Resumed(s: Source, now: int): Source {
    if s.status == Paused && s.pausedUntil.Some? && s.pausedUntil.value <= now then s.(status := Active, pausedUntil := None) else s
  }

  /** The watchdog forces a pull of an idle active source past its hard limit; the guards still apply. */
  predicate Forced(s: Source, maintenance: bool, now: int) { !maintenance && Idle(s) && Stale(s, now) }

  function Watched(s: Source, maintenance: bool, now: int): Source {
    if Forced(s, maintenance, now) then AfterEnqueue(s, maintenance, now) else s
  }

  function Pulled(s: Source, maintenance: bool, now: int): Source {
    if Wanted(s, now) then AfterEnqueue(s, maintenance, now) else s
  }

  /** The chores, then the watchdog, then the plan. */
  function Cycled(s: Source, maintenance: bool, now: int): Source {
    Pulled(Watched(Resumed(s, now), maintenance, now), maintenance, now)
  }

  /** After a cycle every source that could have been pulled, on schedule or by force, has a run. */
  lemma {:induction false} CyclePullsEverybody(s: Source, maintenance: bool, now: int)
    requires var r := Resumed(s, now);
             (Wanted(r, now) || Forced(r, maintenance, now)) && Granted(r, maintenance, now)
    ensures Cycled(s, maintenance, now).busy
  {
  }

  /**
   What one cycle does for an idle source, in the fields of its row: it starts a run exactly if the system is not in
   maintenance, the source is active or its pause has run out, something asks for a run (a signal, the due time or the
   hard staleness limit), the politeness wait is over, and an open breaker has reached its retry.
   */
  lemma {:induction false} CycleStartsIff(s: Source, maintenance: bool, now: int)
    requires !s.busy
    ensures var h := s.health;
            Cycled(s, maintenance, now).busy <==>
              && !maintenance
              && (s.status == Active || (s.status == Paused && s.pausedUntil.Some? && s.pausedUntil.value <= now))
              && (0 < s.signals || h.nextDue.None? || h.nextDue.value <= now
                  || s.hardMaxStaleness < now - (if s.lastSuccess.Some? then s.lastSuccess.value else s.created))
              && (h.lastAttempt.None? || s.minInterval - Grace(s.minInterval) <= now - h.lastAttempt.value)
              && (h.breaker == Open ==> h.retryAt.Some? && h.retryAt.value <= now)
  {
    hide Grace;
  }

  /** A cycle starts nothing the guards would refuse, and leaves the rows of refused sources as they were. */
  lemma {:induction false} CycleRespectsGuards(s: Source, maintenance: bool, now: int)
    ensures var r, c := Resumed(s, now), Cycled(s, maintenance, now);
            && (c.busy && !s.busy ==> Granted(r, maintenance, now) && r.status == Active && !maintenance)
            && (maintenance ==> c == r)
            && (c.busy == s.busy ==> c.(health := r.health) == r)
  {
  }

  // ---------------------------------------------------------------------------------------------
  // The ordered rows
  // ---------------------------------------------------------------------------------------------

  ghost predicate InOrder(sources: seq<Source>, ids: seq<nat>) {
    && (forall p :: 0 <= p < |ids| ==> ids[p] < |sources|)
    && (forall p, q :: 0 <= p < q < |ids| ==> ids[p] != ids[q] && NotAfter(sources[ids[p]], sources[ids[q]]))
  }

  predicate Listed(ids: seq<nat>, i: nat) { exists p :: 0 <= p < |ids| && ids[p] == i }

  /** Insert a new row behind every row that does not come after it. */
  function Insert(sources: seq<Source>, ids: seq<nat>, i: nat): (out: seq<nat>)
    requires i < |sources| && InOrder(sources, ids) && !Listed(ids, i)
    ensures InOrder(sources, out) && forall j :: Listed(out, j) <==> Listed(ids, j) || j == i
  {
    if ids != [] && !NotAfter(sources[ids[|ids| - 1]], sources[i]) then
      PrefixInOrder(sources, ids);
      var last := ids[|ids| - 1];
      var out := Insert(sources, ids[..|ids| - 1], i) + [last];
      InsertBefore(sources, ids, i, Insert(sources, ids[..|ids| - 1], i));
      out
    else
      AppendInOrder(sources, ids, i);
      ids + [i]
  }

  lemma {:induction false} PrefixInOrder(sources: seq<Source>, ids: seq<nat>)
    requires ids != [] && InOrder(sources, ids)
    ensures InOrder(sources, ids[..|ids| - 1])
    ensures forall j :: Listed(ids, j) <==> Listed(ids[..|ids| - 1], j) || j == ids[|ids| - 1]
    ensures !Listed(ids[..|ids| - 1], ids[|ids| - 1])
  {
    hide NotAfter;
    var init := ids[..|ids| - 1];
    forall j ensures Listed(ids, j) <==> Listed(init, j) || j == ids[|ids| - 1] {
      if Listed(init, j) {
        var p :| 0 <= p < |init| && init[p] == j;
        assert ids[p] == j;
      }
      if Listed(ids, j) && j != ids[|ids| - 1] {
        var p :| 0 <= p < |ids| && ids[p] == j;
        assert init[p] == j;
      }
    }
  }

  lemma {:induction false} AppendInOrder(sources: seq<Source>, ids: seq<nat>, i: nat)
    requires i < |sources| && InOrder(sources, ids) && !Listed(ids, i)
    requires ids == [] || NotAfter(sources[ids[|ids| - 1]], sources[i])
    ensures InOrder(sources, ids + [i])
    ensures forall j :: Listed(ids + [i], j) <==> Listed(ids, j) || j == i
  {
    forall j ensures Listed(ids + [i], j) <==> Listed(ids, j) || j == i {
      if Listed(ids, j) {
        var p :| 0 <= p < |ids| && ids[p] == j;
        assert (ids + [i])[p] == j;
      }
      assert (ids + [i])[|ids|] == i;
    }
    forall p | 0 <= p < |ids| ensures ids[p] != i && NotAfter(sources[ids[p]], sources[i]) {
    }
  }

  /** The row goes in before the last one, which comes after it. */
  lemma {:induction false} InsertBefore(sources: seq<Source>, ids: seq<nat>, i: nat, rest: seq<nat>)
    requires i < |sources| && ids != [] && InOrder(sources, ids) && !Listed(ids, i)
    requires !NotAfter(sources[ids[|ids| - 1]], sources[i]) && InOrder(sources, rest)
    requires forall j :: Listed(rest, j) <==> Listed(ids[..|ids| - 1], j) || j == i
    ensures InOrder(sources, rest + [ids[|ids| - 1]])
    ensures forall j :: Listed(rest + [ids[|ids| - 1]], j) <==> Listed(ids, j) || j == i
  {
    var last := ids[|ids| - 1];
    PrefixInOrder(sources, ids);
    assert NotAfter(sources[i], sources[last]);
    forall p | 0 <= p < |rest| ensures rest[p] != last && NotAfter(sources[rest[p]], sources[last]) {
      assert Listed(rest, rest[p]);
      if rest[p] != i {
        var q :| 0 <= q < |ids| - 1 && ids[..|ids| - 1][q] == rest[p];
        assert ids[q] == rest[p];
      } else {
        assert Listed(ids, last);
      }
    }
    hide NotAfter;
    forall j ensures Listed(rest + [last], j) <==> Listed(ids, j) || j == i {
      if Listed(rest, j) {
        var p :| 0 <= p < |rest| && rest[p] == j;
        assert (rest + [last])[p] == j;
      }
      assert (rest + [last])[|rest|] == last;
    }
  }

  class Fleet {
    var sources: seq<Source>
    var maintenance: bool

    constructor (start: seq<Source>)
      ensures sources == start && !maintenance
    {
      sources, maintenance := start, false;
    }

    /** A run succeeded: failures and breaker are reset and the next polite slot is planned. */
    method OnSuccess(i: nat, now: int, changed: bool, fetched: bool, newData: bool)
      requires i < |sources| && 0 < sources[i].cadence
      modifies `sources
      ensures var s := old(sources)[i];
              sources == old(sources)[i := s.(health := AfterSuccess(s.health, s.cadence, s.minInterval, now, fetched),
                                              lastSuccess := if newData then Some(now) else s.lastSuccess,
                                              lastFetch := if fetched then Some(now) else s.lastFetch,
                                              lastChange := if changed then Some(now) else s.lastChange)]
      ensures var h, h' := old(sources)[i].health, sources[i].health;
              && h'.failures == 0 && h'.breaker == Closed && h'.retryAt == None && h'.openedAt == None
              && h'.lastAttempt == (if fetched then Some(now) else h.lastAttempt) && h'.nextDue.Some?
              && now + old(sources)[i].minInterval - Grace(old(sources)[i].minInterval) < h'.nextDue.value
    {
      var s := sources[i];
      NextAfterIsLeastSlot(s.cadence, now + Polite(s.minInterval), 0);
      var h := s.health.(failures := 0, breaker := Closed, openedAt := None, retryAt := None);
      if fetched {
        h := h.(lastAttempt := Some(now));
        s := s.(lastFetch := Some(now));
      }
      if newData {
        s := s.(lastSuccess := Some(now));
      }
      if changed {
        s := s.(lastChange := Some(now));
      }
      h := h.(nextDue := Some(NextDue(s.cadence, s.minInterval, now)));
      sources := sources[i := s.(health := h)];
    }

    /** A fetch failed: one more failure, a sooner retry, and from the third on an open breaker. */
    method OnFailure(i: nat, now: int, ghost clock: int)
      requires i < |sources| && 0 < sources[i].cadence && HealthOk(sources[i].health, clock) && clock <= now
      modifies `sources
      ensures var s := old(sources)[i];
              sources == old(sources)[i := s.(health := AfterFailure(s.health, s.cadence, s.minInterval, now))]
      ensures HealthOk(sources[i].health, now)
      ensures sources[i].health.breaker == Open <==> 3 <= sources[i].health.failures
    {
      var s := sources[i];
      StepKeepsHealthOk(s.health, s.cadence, s.minInterval, clock, now, Failure);
      var failures := s.health.failures + 1;
      var nextDue := Min(NextAfter(s.cadence, now), now + Retry(failures, s.minInterval));
      var h := s.health;
      if failures >= THRESHOLD || h.breaker == HalfOpen {
        var backoff := Backoff(failures);
        nextDue := now + backoff;
        h := h.(breaker := Open, openedAt := Some(if h.openedAt.Some? then h.openedAt.value else now), retryAt := Some(nextDue));
      }
      sources := sources[i := s.(health := h.(failures := failures, lastAttempt := Some(now), nextDue := Some(nextDue)))];
    }

    /** Ask every guard in turn; queue the run if none refuses. A draft source may only be dry-run. */
    method EnqueueGuarded(i: nat, now: int, dryRun: bool, ignoreMinInterval: bool) returns (ok: bool)
      requires i < |sources|
      modifies `sources
      ensures var s := old(sources)[i];
              var why := Guard(s.health, s.minInterval, now, RequestFor(s, maintenance, dryRun, ignoreMinInterval));
              (ok <==> why == None) && sources == old(sources)[i := Asked(s, now, why)]
      ensures var s := old(sources)[i]; var h := s.health;
              (ok <==>
                && !maintenance && (s.status == Active || (s.status == Draft && dryRun)) && !s.busy
                && (ignoreMinInterval || h.lastAttempt.None? || s.minInterval - Grace(s.minInterval) <= now - h.lastAttempt.value)
                && (h.breaker == Open ==> h.retryAt.Some? && h.retryAt.value <= now))
      ensures var s := old(sources)[i]; var h := s.health;
              var probed := s.(health := if h.breaker == Open then h.(breaker := HalfOpen) else h);
              && (h.breaker == Open && (h.retryAt.None? || now < h.retryAt.value) ==> !ok && sources == old(sources))
              && (ok ==> sources == old(sources)[i := probed.(busy := true)])
              && (!ok ==> sources == old(sources) || (s.busy && sources == old(sources)[i := probed]))
    {
      var s := sources[i];
      if maintenance || !(s.status == Active || (s.status == Draft && dryRun)) {
        return false;
      }
      var polite := s.minInterval - Grace(s.minInterval);
      if !ignoreMinInterval && s.health.lastAttempt.Some? && now - s.health.lastAttempt.value < polite {
        return false;
      }
      if s.health.breaker == Open {
        if s.health.retryAt.None? || now < s.health.retryAt.value {
          return false;
        }
        s := s.(health := s.health.(breaker := HalfOpen));
        sources := sources[i := s];
      }
      if s.busy {
        return false;
      }
      sources := sources[i := s.(busy := true)];
      ok := true;
    }

    /** The planning query: idle active sources, by priority and due time. */
    method Rows() returns (ids: seq<nat>)
      ensures InOrder(sources, ids)
      ensures forall i: nat :: Listed(ids, i) <==> i < |sources| && Idle(sources[i])
    {
      hide InOrder, Listed, Idle;
      ids := [];
      NoneListed(sources);
      for k := 0 to |sources|
        invariant InOrder(sources, ids)
        invariant forall i: nat :: Listed(ids, i) <==> i < k && Idle(sources[i])
      {
        if Idle(sources[k]) {
          ids := Insert(sources, ids, k);
        }
      }
    }

    /** Which sources want a run now, and why, in the order of the query; each at most once. */
    method Plan(now: int) returns (out: seq<Planned>)
      ensures InOrder(sources, SourcesOf(out))
      ensures forall i: nat :: InPlan(out, i) <==> i < |sources| && Wanted(sources[i], now)
      ensures forall p, q :: 0 <= p < q < |out| && out[p].source < |sources| && out[q].source < |sources| ==>
                var a, b := sources[out[p].source], sources[out[q].source];
                a.priority < b.priority || (a.priority == b.priority && Earlier(a.health.nextDue, b.health.nextDue))
      ensures forall p :: 0 <= p < |out| && out[p].source < |sources| ==>
                out[p].trigger == if 0 < sources[out[p].source].signals then Signal else Scheduled
    {
      var rows := Rows();
      out := [];
      NoneListed(sources);
      for k := 0 to |rows|
        invariant InOrder(sources, rows) && InOrder(sources, SourcesOf(out))
        invariant forall i: nat :: InPlan(out, i) <==> Listed(rows[..k], i) && i < |sources| && Due(sources[i], now)
        invariant forall p :: 0 <= p < |out| && out[p].source < |sources| ==>
                    out[p].trigger == if 0 < sources[out[p].source].signals then Signal else Scheduled
      {
        var s := sources[rows[k]];
        PlanGrows(sources, rows, k, out, now);
        if 0 < s.signals {
          out := out + [Planned(rows[k], Signal)];
        } else if s.health.nextDue.None? || s.health.nextDue.value <= now {
          out := out + [Planned(rows[k], Scheduled)];
        }
      }
      assert rows[..|rows|] == rows;
      assert forall p :: 0 <= p < |out| ==> SourcesOf(out)[p] == out[p].source;
    }

    /** Put every planned run to the guards; each ends up enqueued or skipped, and nothing else is touched. */
    method RunPlan(planned: seq<Planned>, now: int) returns (enqueued: seq<nat>, skipped: seq<nat>)
      requires forall p :: 0 <= p < |planned| ==> planned[p].source < |sources|
      requires forall p, q :: 0 <= p < q < |planned| ==> planned[p].source != planned[q].source
      modifies `sources
      ensures |sources| == |old(sources)| && |enqueued| + |skipped| == |planned|
      ensures forall i :: 0 <= i < |sources| ==>
                sources[i] == if InPlan(planned, i) then AfterEnqueue(old(sources)[i], maintenance, now) else old(sources)[i]
      ensures forall i :: 0 <= i < |sources| ==> (i in enqueued <==> InPlan(planned, i) && Granted(old(sources)[i], maintenance, now))
      ensures forall i :: 0 <= i < |sources| ==> (i in skipped <==> InPlan(planned, i) && !Granted(old(sources)[i], maintenance, now))
    {
      enqueued, skipped := [], [];
      for k := 0 to |planned|
        invariant |sources| == |old(sources)| && |enqueued| + |skipped| == k
        invariant forall i :: 0 <= i < |sources| ==>
                    sources[i] == if InPlan(planned[..k], i) then AfterEnqueue(old(sources)[i], maintenance, now) else old(sources)[i]
        invariant forall i :: 0 <= i < |sources| ==> (i in enqueued <==> InPlan(planned[..k], i) && Granted(old(sources)[i], maintenance, now))
        invariant forall i :: 0 <= i < |sources| ==> (i in skipped <==> InPlan(planned[..k], i) && !Granted(old(sources)[i], maintenance, now))
      {
        var p := planned[k];
        InPlanStep(planned, k);
        var ok := EnqueueGuarded(p.source, now, false, false);
        if ok {
          enqueued := enqueued + [p.source];
        } else {
          skipped := skipped + [p.source];
        }
      }
      assert planned[..|planned|] == planned;
    }

    /** Housekeeping: sources whose pause has run out are active again. */
    method Chores(now: int)
      modifies `sources
      ensures |sources| == |old(sources)| && forall i :: 0 <= i < |sources| ==> sources[i] == Resumed(old(sources)[i], now)
    {
      for k := 0 to |sources|
        invariant |sources| == |old(sources)|
        invariant forall i :: 0 <= i < k ==> sources[i] == Resumed(old(sources)[i], now)
        invariant forall i :: k <= i < |sources| ==> sources[i] == old(sources)[i]
      {
        var s := sources[k];
        if s.status == Paused && s.pausedUntil.Some? && s.pausedUntil.value <= now {
          sources := sources[k := s.(status := Active, pausedUntil := None)];
        }
      }
    }

    /** Force a pull of every idle source past its hard staleness limit. */
    method WatchdogPulls(now: int) returns (enqueued: seq<nat>)
      modifies `sources
      ensures |sources| == |old(sources)|
      ensures forall i :: 0 <= i < |sources| ==> sources[i] == Watched(old(sources)[i], maintenance, now)
      ensures forall i :: 0 <= i < |sources| ==>
                (i in enqueued <==> Forced(old(sources)[i], maintenance, now) && Granted(old(sources)[i], maintenance, now))
    {
      enqueued := [];
      if maintenance {
        return;
      }
      for k := 0 to |sources|
        invariant |sources| == |old(sources)|
        invariant forall i :: 0 <= i < k ==> sources[i] == Watched(old(sources)[i], maintenance, now)
        invariant forall i :: k <= i < |sources| ==> sources[i] == old(sources)[i]
        invariant forall i :: 0 <= i < |sources| ==>
                    (i in enqueued <==> i < k && Forced(old(sources)[i], maintenance, now) && Granted(old(sources)[i], maintenance, now))
      {
        var s := sources[k];
        hide Guard, Asked, Stale;
        if s.status == Active && !s.busy && Stale(s, now) {
          var ok := EnqueueGuarded(k, now, false, false);
          if ok {
            enqueued := enqueued + [k];
          }
        }
      }
    }

    /** The plan, made and carried out. */
    method PullWanted(now: int) returns (enqueued: seq<nat>, skipped: seq<nat>)
      modifies `sources
      ensures |sources| == |old(sources)|
      ensures forall i :: 0 <= i < |sources| ==> sources[i] == Pulled(old(sources)[i], maintenance, now)
      ensures forall i :: 0 <= i < |sources| ==>
                (i in enqueued <==> Wanted(old(sources)[i], now) && Granted(old(sources)[i], maintenance, now))
      ensures forall i :: 0 <= i < |sources| ==>
                (i in skipped <==> Wanted(old(sources)[i], now) && !Granted(old(sources)[i], maintenance, now))
    {
      hide AfterEnqueue, Granted, InOrder, InPlan, Wanted;
      var planned := Plan(now);
      PlannedOnce(sources, planned);
      enqueued, skipped := RunPlan(planned, now);
    }

    /**
     One deterministic cycle over the source table. A source ends up with a run exactly as its own row decides; the
     report lists the forced pulls first and then the scheduled ones.
     */
    method Cycle(now: int) returns (enqueued: seq<nat>, skipped: seq<nat>)
      modifies `sources
      ensures |sources| == |old(sources)|
      ensures forall i :: 0 <= i < |sources| ==> sources[i] == Cycled(old(sources)[i], maintenance, now)
      ensures forall i :: 0 <= i < |sources| ==> (i in enqueued <==> sources[i].busy && !old(sources)[i].busy)
    {
      hide Pulled, Watched, Granted, Forced, Wanted;
      Chores(now);
      var forced := WatchdogPulls(now);
      enqueued, skipped := PullWanted(now);
      enqueued := forced + enqueued;
      forall i | 0 <= i < |sources| ensures i in enqueued <==> sources[i].busy && !old(sources)[i].busy {
        BusyStays(Resumed(old(sources)[i], now), maintenance, now);
      }
    }
  }

  /** A granted request leaves the source busy, and a busy source stays busy. */
  lemma {:induction false} BusyStays(s: Source, maintenance: bool, now: int)
    ensures var w := Watched(s, maintenance, now);
            && (Forced(s, maintenance, now) && Granted(s, maintenance, now) <==> w.busy && !s.busy)
            && (Wanted(w, now) && Granted(w, maintenance, now) <==> Pulled(w, maintenance, now).busy && !w.busy)
            && (s.busy ==> w.busy) && (w.busy ==> Pulled(w, maintenance, now).busy)
  {
  }

  function SourcesOf(planned: seq<Planned>): (ids: seq<nat>)
    ensures |ids| == |planned| && forall p :: 0 <= p < |ids| ==> ids[p] == planned[p].source
  {
    seq(|planned|, p requires 0 <= p < |planned| => planned[p].source)
  }

  lemma {:induction false} NoneListed(sources: seq<Source>)
    ensures InOrder(sources, []) && InOrder(sources, SourcesOf([])) && forall i :: !Listed([], i)
  {
  }

  lemma {:induction false} PlannedOnce(sources: seq<Source>, planned: seq<Planned>)
    requires InOrder(sources, SourcesOf(planned))
    ensures forall p :: 0 <= p < |planned| ==> planned[p].source < |sources|
    ensures forall p, q :: 0 <= p < q < |planned| ==> planned[p].source != planned[q].source
  {
    forall p | 0 <= p < |planned| ensures planned[p].source < |sources| {
      assert SourcesOf(planned)[p] == planned[p].source;
    }
    forall p, q | 0 <= p < q < |planned| ensures planned[p].source != planned[q].source {
      assert SourcesOf(planned)[p] != SourcesOf(planned)[q];
    }
  }

  /** The next row of the query may be appended to the plan. */
  lemma {:induction false} PlanGrows(sources: seq<Source>, rows: seq<nat>, k: nat, out: seq<Planned>, now: int)
    requires k < |rows| && InOrder(sources, rows) && InOrder(sources, SourcesOf(out))
    requires forall i: nat :: InPlan(out, i) <==> Listed(rows[..k], i) && i < |sources| && Due(sources[i], now)
    ensures rows[k] < |sources|
    ensures forall i :: Listed(rows[..k + 1], i) <==> Listed(rows[..k], i) || i == rows[k]
    ensures !Listed(rows[..k], rows[k])
    ensures forall t :: InOrder(sources, SourcesOf(out + [Planned(rows[k], t)]))
    ensures forall t, i :: InPlan(out + [Planned(rows[k], t)], i) <==> InPlan(out, i) || i == rows[k]
  {
    hide NotAfter, Due;
    ListedStep(rows, k);
    forall t, i ensures InPlan(out + [Planned(rows[k], t)], i) <==> InPlan(out, i) || i == rows[k] {
      var longer := out + [Planned(rows[k], t)];
      if InPlan(out, i) {
        var p :| 0 <= p < |out| && out[p].source == i;
        assert longer[p].source == i;
      }
      assert longer[|out|].source == rows[k];
    }
    forall t ensures InOrder(sources, SourcesOf(out + [Planned(rows[k], t)])) {
      PlanStaysInOrder(sources, rows, k, out, t);
    }
  }

  lemma {:induction false} ListedStep(rows: seq<nat>, k: nat)
    requires k < |rows| && forall p, q :: 0 <= p < q < |rows| ==> rows[p] != rows[q]
    ensures forall i :: Listed(rows[..k + 1], i) <==> Listed(rows[..k], i) || i == rows[k]
    ensures !Listed(rows[..k], rows[k])
  {
    var a, b := rows[..k], rows[..k + 1];
    forall i ensures Listed(b, i) <==> Listed(a, i) || i == rows[k] {
      if Listed(a, i) {
        var p :| 0 <= p < |a| && a[p] == i;
        assert b[p] == i;
      }
      assert b[k] == rows[k];
      if Listed(b, i) && i != rows[k] {
        var p :| 0 <= p < |b| && b[p] == i;
        assert a[p] == i;
      }
    }
  }

  lemma {:induction false} PlanStaysInOrder(sources: seq<Source>, rows: seq<nat>, k: nat, out: seq<Planned>, t: Trigger)
    requires k < |rows| && InOrder(sources, rows) && InOrder(sources, SourcesOf(out))
    requires forall i :: InPlan(out, i) ==> Listed(rows[..k], i)
    ensures InOrder(sources, SourcesOf(out + [Planned(rows[k], t)]))
  {
    hide NotAfter;
    var ids, longer := SourcesOf(out), SourcesOf(out + [Planned(rows[k], t)]);
    assert longer == ids + [rows[k]];
    forall p | 0 <= p < |ids| ensures ids[p] != rows[k] && NotAfter(sources[ids[p]], sources[rows[k]]) {
      assert out[p].source == ids[p];
      assert InPlan(out, ids[p]);
      var q :| 0 <= q < k && rows[..k][q] == ids[p];
      assert rows[q] == ids[p];
    }
  }

  predicate InPlan(planned: seq<Planned>, i: nat) {
    exists p :: 0 <= p < |planned| && planned[p].source == i
  }

  lemma {:induction false} InPlanStep(planned: seq<Planned>, k: nat)
    requires k < |planned| && forall p, q :: 0 <= p < q < |planned| ==> planned[p].source != planned[q].source
    ensures !InPlan(planned[..k], planned[k].source)
    ensures forall i: nat :: InPlan(planned[..k + 1], i) <==> InPlan(planned[..k], i) || i == planned[k].source
  {
    var a, b := planned[..k], planned[..k + 1];
    forall i: nat | InPlan(a, i) ensures InPlan(b, i) {
      var p :| 0 <= p < |a| && a[p].source == i;
      assert b[p].source == i;
    }
    assert b[k].source == planned[k].source;
    forall i: nat | InPlan(b, i) && i != planned[k].source ensures InPlan(a, i) {
      var p :| 0 <= p < |b| && b[p].source == i;
      assert a[p].source == i;
    }
  }

  /**
   No source starves: an idle, due, active source outside maintenance wins every guard once six hours (or its
   politeness interval, if longer) have passed since it was last contacted, and the next cycle gives it a run.
   */
  lemma {:induction false} DueSourceIsGranted(s: Source, clock: int, es: seq<Timed>, now: int)
    requires Monotone(clock, es) && s.health == HealthRun(FRESH, es)
    requires 0 <= s.minInterval && Wanted(s, now)
    requires s.health.lastAttempt.Some? ==> GrantedFrom(s.health, s.minInterval) <= now
    ensures Granted(s, false, now) && Cycled(s, false, now).busy
  {
    GuardGrantsInTheEnd(clock, es, s.minInterval, now, RequestFor(s, false, false, false));
  }
}
