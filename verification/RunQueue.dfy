/**
 The queue of runs: enqueue, claim under a lease, heartbeat, cancel, finish, and reclaim of abandoned runs.
 A run id is a position in the table. `archived` is the sha of the run's finished ARCHIVE checkpoint, and
 `claims` counts how often the run was handed to a worker.
 */
module RunQueue {
  import opened Base
  import opened Canonical

  datatype SourceId = SourceId(id: string)

  datatype RunKind = ListIngest | ReleaseHeld(version: nat)

  datatype Options = Options(dryRun: bool, forceRefetch: bool, reparse: Option<Sha>)

  datatype RunStatus =
    | Queued | Running
    | Succeeded | NoChange | DryRunOk | RunHeld | RunQuarantined | Failed | Abandoned | Cancelled

  datatype Run = Run(
    source: SourceId, kind: RunKind, options: Options, requestedBy: Actor, status: RunStatus,
    attempt: nat, resumedFrom: Option<nat>, batch: nat, queuedAt: int, notBefore: int,
    leaseOwner: Option<Actor>, leaseExpires: int, cancelRequested: bool, archived: Option<Sha>, claims: nat)

  const MAX_RESUMES := 3
  const RECLAIMER := Actor("system:reclaimer")

  predicate Active(s: RunStatus) { s in {Queued, Running} }

  predicate ActiveFor(r: Run, source: SourceId) { Active(r.status) && r.source == source }

  predicate Busy(runs: seq<Run>, source: SourceId) {
    exists i :: 0 <= i < |runs| && ActiveFor(runs[i], source)
  }

  function NewRun(source: SourceId, kind: RunKind, options: Options, who: Actor, batch: nat, now: int, notBefore: int): Run {
    Run(source, kind, options, who, Queued, 1, None, batch, now, notBefore, None, 0, false, None, 0)
  }

  /** Queue a run unless its source already has an active one. */
  function Enqueue(runs: seq<Run>, r: Run): seq<Run> {
    if Busy(runs, r.source) then runs else runs + [r]
  }

  predicate Claimable(r: Run, now: int) { r.status == Queued && r.notBefore <= now }

  function ClaimRun(r: Run, worker: Actor, now: int, lease: nat): Run {
    r.(status := Running, leaseOwner := Some(worker), leaseExpires := now + lease, claims := r.claims + 1)
  }

  function BeatRun(r: Run, worker: Actor, now: int, lease: nat): Run {
    if r.status == Running && r.leaseOwner == Some(worker) then r.(leaseExpires := now + lease) else r
  }

  function CancelRun(r: Run): Run {
    if r.status == Queued then r.(status := Cancelled, cancelRequested := true)
    else if r.status == Running then r.(cancelRequested := true)
    else r
  }

  function FinishRun(r: Run, status: RunStatus): Run {
    r.(status := status, leaseOwner := None)
  }

  predicate LeaseExpired(r: Run, now: int) { r.status == Running && r.leaseExpires < now }

  /** The length the recursive query counts: the run and everything it was resumed from. */
  function ChainLength(runs: seq<Run>, r: nat): nat
    requires r < |runs|
    decreases r
  {
    if runs[r].resumedFrom.Some? && runs[r].resumedFrom.value < r then 1 + ChainLength(runs, runs[r].resumedFrom.value) else 1
  }

  function ResumeOf(run: Run, r: nat, now: int): Run {
    NewRun(run.source, run.kind, run.options, RECLAIMER, run.batch, now, now).(attempt := run.attempt + 1, resumedFrom := Some(r))
  }

  /** One abandoned run: mark it, and queue its resumption while the chain is short and the source active. */
  function Reclaim(runs: seq<Run>, r: nat, sourceActive: bool, now: int): seq<Run>
    requires r < |runs|
  {
    var marked := runs[r := runs[r].(status := Abandoned)];
    if ChainLength(marked, r) <= MAX_RESUMES && sourceActive then Enqueue(marked, ResumeOf(runs[r], r, now)) else marked
  }

  // ---------------------------------------------------------------------------------------------
  // Invariant
  // ---------------------------------------------------------------------------------------------

  ghost predicate RunOk(runs: seq<Run>, i: nat)
    requires i < |runs|
  {
    && runs[i].claims <= 1
    && (runs[i].status == Queued ==> runs[i].claims == 0)
    && (runs[i].status == Running ==> runs[i].claims == 1)
    && 1 <= runs[i].attempt <= MAX_RESUMES + 1
    && (runs[i].resumedFrom == None ==> runs[i].attempt == 1)
    && (runs[i].resumedFrom.Some? ==> ResumesProperly(runs, runs[i].resumedFrom.value, i))
  }

  /** `i` continues the earlier, abandoned run `p` under the same terms. */
  ghost predicate ResumesProperly(runs: seq<Run>, p: nat, i: nat)
    requires i < |runs|
  {
    && p < i && runs[p].status == Abandoned
    && runs[i].attempt == runs[p].attempt + 1
    && runs[i].source == runs[p].source && runs[i].kind == runs[p].kind
    && runs[i].options == runs[p].options && runs[i].batch == runs[p].batch
  }

  ghost predicate OneActive(runs: seq<Run>) {
    forall i, j :: 0 <= i < j < |runs| && Active(runs[i].status) && Active(runs[j].status) ==> runs[i].source != runs[j].source
  }

  /** No run is resumed twice. */
  ghost predicate Linear(runs: seq<Run>) {
    forall i, j :: 0 <= i < j < |runs| && runs[i].resumedFrom.Some? ==> runs[i].resumedFrom != runs[j].resumedFrom
  }

  ghost predicate QueueOk(runs: seq<Run>) {
    && (forall i :: 0 <= i < |runs| ==> RunOk(runs, i))
    && OneActive(runs)
    && Linear(runs)
  }

  /** A change to one run that keeps its identity and does not reopen it keeps the queue in order. */
  ghost predicate Forward(r: Run, r': Run) {
    && r'.source == r.source && r'.kind == r.kind && r'.options == r.options && r'.batch == r.batch
    && r'.attempt == r.attempt && r'.resumedFrom == r.resumedFrom
    && (Active(r'.status) ==> Active(r.status))
    && (r.status == Abandoned ==> r'.status == Abandoned)
    && r'.claims <= 1 && (r'.status == Queued ==> r'.claims == 0) && (r'.status == Running ==> r'.claims == 1)
  }

  lemma {:induction false} UpdateKeepsQueueOk(runs: seq<Run>, r: nat, run: Run)
    requires QueueOk(runs) && r < |runs| && Forward(runs[r], run)
    ensures QueueOk(runs[r := run])
  {
    var runs' := runs[r := run];
    forall i | 0 <= i < |runs'| ensures RunOk(runs', i) {
      assert RunOk(runs, i);
    }
  }

  lemma {:induction false} EnqueueKeepsQueueOk(runs: seq<Run>, r: Run)
    requires QueueOk(runs) && r.status == Queued && r.claims == 0 && r.resumedFrom == None && r.attempt == 1
    ensures QueueOk(Enqueue(runs, r))
  {
    if !Busy(runs, r.source) {
      AppendKeepsQueueOk(runs, r);
    }
  }

  lemma {:induction false} AppendKeepsQueueOk(runs: seq<Run>, r: Run)
    requires QueueOk(runs) && !Busy(runs, r.source) && r.status == Queued && r.claims == 0 && 1 <= r.attempt <= MAX_RESUMES + 1
    requires r.resumedFrom == None ==> r.attempt == 1
    requires r.resumedFrom.Some? ==> r.resumedFrom.value < |runs| && ResumesProperly(runs + [r], r.resumedFrom.value, |runs|)
    requires r.resumedFrom.Some? ==> forall i :: 0 <= i < |runs| ==> runs[i].resumedFrom != r.resumedFrom
    ensures QueueOk(runs + [r])
  {
    var runs' := runs + [r];
    forall i | 0 <= i < |runs'| ensures RunOk(runs', i) {
      if i < |runs| {
        assert RunOk(runs, i);
      }
    }
    forall i, j | 0 <= i < j < |runs'| && Active(runs'[i].status) && Active(runs'[j].status) ensures runs'[i].source != runs'[j].source {
      if j == |runs| {
        assert !ActiveFor(runs[i], r.source);
      }
    }
  }

  /** `attempt` is exactly the length of the resume chain, so the chain is never longer than MAX_RESUMES + 1. */
  lemma {:induction false} AttemptIsChainLength(runs: seq<Run>, r: nat)
    requires QueueOk(runs) && r < |runs|
    ensures ChainLength(runs, r) == runs[r].attempt <= MAX_RESUMES + 1
    decreases r
  {
    assert RunOk(runs, r);
    if runs[r].resumedFrom.Some? {
      AttemptIsChainLength(runs, runs[r].resumedFrom.value);
    }
  }

  /** Marking a run abandoned does not change the length of any chain. */
  lemma {:induction false} ChainLengthFrame(runs: seq<Run>, runs': seq<Run>, r: nat)
    requires r < |runs| <= |runs'|
    requires forall i :: 0 <= i <= r ==> runs'[i].resumedFrom == runs[i].resumedFrom
    ensures ChainLength(runs', r) == ChainLength(runs, r)
    decreases r
  {
    if runs[r].resumedFrom.Some? && runs[r].resumedFrom.value < r {
      ChainLengthFrame(runs, runs', runs[r].resumedFrom.value);
    }
  }

  lemma {:induction false} ReclaimKeepsQueueOk(runs: seq<Run>, r: nat, sourceActive: bool, now: int)
    requires QueueOk(runs) && r < |runs| && runs[r].status == Running
    ensures QueueOk(Reclaim(runs, r, sourceActive, now))
  {
    var marked := runs[r := runs[r].(status := Abandoned)];
    assert RunOk(runs, r);
    UpdateKeepsQueueOk(runs, r, runs[r].(status := Abandoned));
    AttemptIsChainLength(marked, r);
    var next := ResumeOf(runs[r], r, now);
    if ChainLength(marked, r) <= MAX_RESUMES && sourceActive && !Busy(marked, next.source) {
      forall i | 0 <= i < |marked| ensures marked[i].resumedFrom != Some(r) {
        assert RunOk(runs, i);
      }
      AppendKeepsQueueOk(marked, next);
    }
  }

  /** The resumption is never refused as "already active": the abandoned run was the source's only active one. */
  lemma {:induction false} ReclaimResumesIff(runs: seq<Run>, r: nat, sourceActive: bool, now: int)
    requires QueueOk(runs) && r < |runs| && runs[r].status == Running
    ensures var runs' := Reclaim(runs, r, sourceActive, now);
            && runs'[r] == runs[r].(status := Abandoned)
            && (|runs'| == |runs| + 1 <==> runs[r].attempt <= MAX_RESUMES && sourceActive)
            && (|runs'| == |runs| + 1 ==> runs'[|runs|] == ResumeOf(runs[r], r, now))
            && (|runs'| != |runs| + 1 ==> |runs'| == |runs| && !Busy(runs', runs[r].source))
  {
    var marked := runs[r := runs[r].(status := Abandoned)];
    AttemptIsChainLength(runs, r);
    ChainLengthFrame(runs, marked, r);
    forall i | 0 <= i < |marked| ensures !ActiveFor(marked[i], runs[r].source) {
      if i != r {
        assert Active(runs[r].status);
      }
    }
  }

  /** How many resumptions a chain still allows; every resumption uses one up. */
  function ResumesLeft(r: Run): int { MAX_RESUMES + 1 - r.attempt }

  lemma {:induction false} ResumingTerminates(runs: seq<Run>, i: nat)
    requires QueueOk(runs) && i < |runs|
    ensures 0 <= ResumesLeft(runs[i])
    ensures runs[i].resumedFrom.Some? ==> runs[i].resumedFrom.value < i && ResumesLeft(runs[i]) < ResumesLeft(runs[runs[i].resumedFrom.value])
  {
    assert RunOk(runs, i);
  }

  /** `a` is `r` or one of the runs `r` continues. */
  predicate InChain(runs: seq<Run>, a: nat, r: nat)
    requires r < |runs|
    decreases r
  {
    a == r || (runs[r].resumedFrom.Some? && runs[r].resumedFrom.value < r && InChain(runs, a, runs[r].resumedFrom.value))
  }

  /** All members of a chain share source, kind, options and batch; every member but the last is abandoned. */
  lemma {:induction false} ChainShares(runs: seq<Run>, a: nat, r: nat)
    requires QueueOk(runs) && r < |runs| && InChain(runs, a, r)
    ensures a <= r
    ensures runs[a].source == runs[r].source && runs[a].kind == runs[r].kind
    ensures runs[a].options == runs[r].options && runs[a].batch == runs[r].batch
    ensures a != r ==> runs[a].status == Abandoned && runs[a].attempt < runs[r].attempt
    decreases r
  {
    assert RunOk(runs, r);
    if a != r {
      var p := runs[r].resumedFrom.value;
      ChainShares(runs, a, p);
      assert RunOk(runs, p);
    }
  }

  /** At most one run of a chain ever finishes: two members of one chain cannot both have succeeded. */
  lemma {:induction false} ChainFinishesOnce(runs: seq<Run>, a: nat, b: nat, r: nat)
    requires QueueOk(runs) && r < |runs| && InChain(runs, a, r) && InChain(runs, b, r) && a != b
    ensures a < |runs| && b < |runs| && (runs[a].status == Abandoned || runs[b].status == Abandoned)
  {
    ChainShares(runs, a, r);
    ChainShares(runs, b, r);
  }

  /** A run is handed out at most once: claiming needs a queued run, and no later change makes a run queued again. */
  lemma {:induction false} ClaimKeepsQueueOk(runs: seq<Run>, r: nat, worker: Actor, now: int, lease: nat)
    requires QueueOk(runs) && r < |runs| && Claimable(runs[r], now)
    ensures QueueOk(runs[r := ClaimRun(runs[r], worker, now, lease)])
  {
    assert RunOk(runs, r);
    UpdateKeepsQueueOk(runs, r, ClaimRun(runs[r], worker, now, lease));
  }

  // ---------------------------------------------------------------------------------------------
  // Any interleaving
  // ---------------------------------------------------------------------------------------------

  datatype QueueEvent =
    | Submit(source: SourceId, kind: RunKind, options: Options, who: Actor, batch: nat, now: int, notBefore: int)
    | Take(run: nat, worker: Actor, now: int, lease: nat)
    | Beat(run: nat, worker: Actor, now: int, lease: nat)
    | Cancel(run: nat)
    | Complete(run: nat, status: RunStatus)
    | Expire(run: nat, sourceActive: bool, now: int)

  function QueueStep(runs: seq<Run>, e: QueueEvent): seq<Run> {
    match e
    case Submit(source, kind, options, who, batch, now, notBefore) => Enqueue(runs, NewRun(source, kind, options, who, batch, now, notBefore))
    case Take(r, worker, now, lease) =>
      if r < |runs| && Claimable(runs[r], now) then runs[r := ClaimRun(runs[r], worker, now, lease)] else runs
    case Beat(r, worker, now, lease) => if r < |runs| then runs[r := BeatRun(runs[r], worker, now, lease)] else runs
    case Cancel(r) => if r < |runs| then runs[r := CancelRun(runs[r])] else runs
    case Complete(r, status) => if r < |runs| && runs[r].status == Running && !Active(status) then runs[r := FinishRun(runs[r], status)] else runs
    case Expire(r, sourceActive, now) => if r < |runs| && LeaseExpired(runs[r], now) then Reclaim(runs, r, sourceActive, now) else runs
  }

  function QueueHistory(runs: seq<Run>, es: seq<QueueEvent>): seq<Run> {
    if es == [] then runs else QueueStep(QueueHistory(runs, es[..|es| - 1]), es[|es| - 1])
  }

  lemma {:induction false} QueueStepKeepsQueueOk(runs: seq<Run>, e: QueueEvent)
    requires QueueOk(runs)
    ensures QueueOk(QueueStep(runs, e))
  {
    if !e.Submit? && e.run < |runs| {
      assert RunOk(runs, e.run);
    }
    hide QueueOk, Enqueue, Reclaim;
    match e {
      case Submit(source, kind, options, who, batch, now, notBefore) =>
        EnqueueKeepsQueueOk(runs, NewRun(source, kind, options, who, batch, now, notBefore));
      case Take(r, worker, now, lease) => if r < |runs| && Claimable(runs[r], now) { ClaimKeepsQueueOk(runs, r, worker, now, lease); }
      case Beat(r, worker, now, lease) => if r < |runs| { UpdateKeepsQueueOk(runs, r, BeatRun(runs[r], worker, now, lease)); }
      case Cancel(r) => if r < |runs| { UpdateKeepsQueueOk(runs, r, CancelRun(runs[r])); }
      case Complete(r, status) =>
        if r < |runs| && runs[r].status == Running && !Active(status) { UpdateKeepsQueueOk(runs, r, FinishRun(runs[r], status)); }
      case Expire(r, sourceActive, now) => if r < |runs| && LeaseExpired(runs[r], now) { ReclaimKeepsQueueOk(runs, r, sourceActive, now); }
    }
  }

  /**
   Under every interleaving over any number of sources: no two active runs of one source, no run handed out twice,
   and every chain linear, under one set of terms and within its limit.
   */
  lemma {:induction false} AnyInterleavingKeepsQueueOk(es: seq<QueueEvent>)
    ensures QueueOk(QueueHistory([], es))
  {
    hide QueueOk, QueueStep;
    if es == [] {
      EmptyQueueOk();
    } else {
      AnyInterleavingKeepsQueueOk(es[..|es| - 1]);
      QueueStepKeepsQueueOk(QueueHistory([], es[..|es| - 1]), es[|es| - 1]);
    }
  }

  lemma {:induction false} EmptyQueueOk()
    ensures QueueOk([])
  {
  }

  lemma {:induction false} OneActiveRunEach(es: seq<QueueEvent>, i: nat, j: nat)
    requires i < j < |QueueHistory([], es)|
    ensures var runs := QueueHistory([], es);
            && (runs[i].status in {Queued, Running} && runs[j].status in {Queued, Running} ==> runs[i].source != runs[j].source)
            && runs[i].claims <= 1 && runs[j].claims <= 1
  {
    AnyInterleavingKeepsQueueOk(es);
    assert RunOk(QueueHistory([], es), i) && RunOk(QueueHistory([], es), j);
    hide QueueHistory;
  }
}
