/**
 Exactly which transactions strand a held version: those after which it is still held, but no reviewer can approve
 its release any more and no approved release is on its way.
 */
module Stranding {
  import opened Base
  import opened Canonical
  import opened Scd2
  import opened ListStore
  import opened Staging
  import opened RunQueue
  import opened Pipeline
  import opened PipelineInvariant
  import opened PipelineSteps
  import opened PipelineTheorems
  import opened HeldVersions
  import V = Validation

  predicate IsHeld(m: Machine, v: nat) { v < |m.store.versions| && m.store.versions[v].status == Held }

  /** The run `r` is a release of version `v`. */
  predicate Releases(m: Machine, r: nat, v: nat) { r < |m.runs| && m.runs[r].kind == ReleaseHeld(v) }

  /** The ways a releasable held version loses its way out. */
  predicate Strands(m: Machine, e: Event, v: nat) {
    // an older version is published
    || (Publishes(m, e) && PublishedVersion(m) < v)
    // its queued release is withdrawn
    || (e.RequestCancel? && Releases(m, e.run, v) && m.runs[e.run].status == Queued)
    // its release fails
    || (e.StopInternal? && Working(m) && Releases(m, m.worker.value.run, v))
    // its release is abandoned and not resumed: too many attempts, or the source is not active
    || (e.ReclaimRun? && Releases(m, e.run, v) && m.runs[e.run].status == Running && m.runs[e.run].leaseExpires < e.now && m.worker.None?
        && (m.runs[e.run].attempt > 3 || !m.active))
    // a reviewer declines it
    || (e.Decide? && !e.approve && e.proposal < |m.store.proposals|
        && var p := m.store.proposals[e.proposal];
        && p.subject == LargeChangeRelease(v) && p.status == Awaiting && p.proposedBy != e.reviewer && e.role in {Reviewer, Admin})
  }

  // ---------------------------------------------------------------------------------------------
  // Before the step: one way out, not two
  // ---------------------------------------------------------------------------------------------

  /** An approved release is spent: while its run is active nothing awaits review for the version. */
  lemma {:induction false} OneWayOut(env: Env, m: Machine, v: nat)
    requires MachineOk(env, m) && BeingReleased(m.runs, v)
    ensures !AwaitsRelease(m.store.proposals, v)
  {
    var r :| 0 <= r < |m.runs| && m.runs[r].kind == ReleaseHeld(v) && Active(m.runs[r].status);
    assert TablesOk(env, m);
    ReleaseStillHeld(env, m, r, v);
    SpentApproval(env, m, v);
  }

  /** The source's one active run, when a release of `v` is under way. */
  lemma {:induction false} TheRelease(env: Env, m: Machine, v: nat) returns (r: nat)
    requires MachineOk(env, m) && BeingReleased(m.runs, v)
    ensures Releases(m, r, v) && Active(m.runs[r].status)
    ensures forall i :: 0 <= i < |m.runs| && Active(m.runs[i].status) ==> i == r
    ensures m.worker.Some? ==> Working(m) && m.worker.value.run == r && m.worker.value.phase.Releasing?
  {
    r :| 0 <= r < |m.runs| && m.runs[r].kind == ReleaseHeld(v) && Active(m.runs[r].status);
    NewestIsActive(env, m);
    if m.worker.Some? {
      WorkerReleases(env, m);
    }
    hide MachineOk;
  }

  lemma {:induction false} NewestIsActive(env: Env, m: Machine)
    requires MachineOk(env, m)
    ensures forall i :: 0 <= i < |m.runs| && Active(m.runs[i].status) ==> i == |m.runs| - 1
  {
    hide TablesOk, WorkerOk;
  }

  lemma {:induction false} WorkerReleases(env: Env, m: Machine)
    requires MachineOk(env, m) && m.worker.Some?
    ensures Working(m) && Active(Me(m).status) && (Me(m).kind.ReleaseHeld? ==> m.worker.value.phase.Releasing?)
  {
    LinkedRuns(env, m);
    hide TablesOk, FreshQueued, VerdictOn, FirstByKey, Open, Content;
  }

  lemma {:induction false} OneProposal(env: Env, m: Machine, v: nat) returns (p: nat)
    requires MachineOk(env, m) && AwaitsRelease(m.store.proposals, v)
    ensures p < |m.store.proposals| && m.store.proposals[p].subject == LargeChangeRelease(v) && m.store.proposals[p].status == Awaiting
    ensures forall q :: 0 <= q < |m.store.proposals| && m.store.proposals[q].subject == LargeChangeRelease(v) ==> q == p
  {
    p :| 0 <= p < |m.store.proposals| && m.store.proposals[p].subject == LargeChangeRelease(v) && m.store.proposals[p].status == Awaiting;
    assert ProposalsOk(m.store.proposals, m.store.versions, |m.store.removals|, m.runs);
  }

  // ---------------------------------------------------------------------------------------------
  // The worker's steps
  // ---------------------------------------------------------------------------------------------

  /** Short of publishing, the worker only adds proposals. */
  lemma {:induction false} WorkerProposes(env: Env, m: Machine, e: Event)
    requires Working(m) && OfWorker(e) && !Publishes(m, e)
    ensures m.store.proposals <= WorkerStep(env, m, e).store.proposals
  {
    hide DoPublish, DoPublishHeld, VerdictOn, FirstByKey, MaxSeq, FileGood, Checkpoint, DoArchive, DoReuse;
    QuietFetch(m, e);
  }

  lemma {:induction false} StillAwaited(ps: seq<Proposal>, ps': seq<Proposal>, v: nat)
    requires AwaitsRelease(ps, v) && ps <= ps'
    ensures AwaitsRelease(ps', v)
  {
    var p :| 0 <= p < |ps| && ps[p].subject == LargeChangeRelease(v) && ps[p].status == Awaiting;
    assert ps'[p] == ps[p];
  }

  /** A releasing worker publishes, dies, fails, or does nothing. */
  lemma {:induction false} ReleasingWorker(env: Env, m: Machine, e: Event)
    requires Working(m) && m.worker.value.phase.Releasing? && OfWorker(e) && !Publishes(m, e)
    ensures e.Crash? ==> WorkerStep(env, m, e) == m.(worker := None)
    ensures e.StopInternal? ==> WorkerStep(env, m, e) == Finish(m, Failed)
    ensures !e.Crash? && !e.StopInternal? ==> WorkerStep(env, m, e) == m
  {
  }

  lemma {:induction false} ReleaseSteps(env: Env, m: Machine, e: Event, v: nat)
    requires MachineOk(env, m) && BeingReleased(m.runs, v) && OfWorker(e) && Working(m) && !Publishes(m, e)
    ensures WorkerStep(env, m, e).store == m.store
    ensures CanRelease(WorkerStep(env, m, e), v) <==> !Strands(m, e, v)
  {
    hide MachineOk, AwaitsRelease, BeingReleased, Publishes, WorkerStep, Strands;
    OneWayOut(env, m, v);
    var r := TheRelease(env, m, v);
    ReleasingWorker(env, m, e);
    WorkerStrands(m, e, v);
    if e.StopInternal? {
      NoneReleasedAfter(m.runs, r, FinishRun(m.runs[r], Failed), v);
    }
  }

  lemma {:induction false} WorkerStrands(m: Machine, e: Event, v: nat)
    requires OfWorker(e) && Working(m) && !Publishes(m, e)
    ensures Strands(m, e, v) <==> e.StopInternal? && Releases(m, m.worker.value.run, v)
  {
    hide Publishes;
  }

  lemma {:induction false} StopsLeaveHeld(m: Machine, v: nat)
    requires Working(m) && IsHeld(m, v)
    ensures IsHeld(DoStopInternal(m), v) && IsHeld(DoStopCancelled(m), v)
  {
  }

  lemma {:induction false} VerdictLeavesHeld(env: Env, m: Machine, sha: Sha, w: nat, v: nat)
    requires Working(m) && IsHeld(m, v) && w != v
    ensures IsHeld(DoValidateRecords(env, m, sha, w), v)
  {
    hide VerdictOn;
  }

  /** What a worker's step leaves of a version that is not its own. */
  lemma {:induction false} OthersLeftHeld(env: Env, m: Machine, e: Event, v: nat)
    requires IsHeld(m, v) && OfWorker(e) && Working(m) && !Publishes(m, e)
    requires m.worker.value.phase.Decided? || m.worker.value.phase.Parsed? ==> m.worker.value.phase.version != v
    ensures IsHeld(WorkerStep(env, m, e), v)
  {
    hide WorkerStep, Publishes, DoStopInternal, DoStopCancelled, DoValidateRecords, CloseVersion, MarkVersion;
    var w := m.worker.value;
    if e.StopInternal? || e.StopCancelled? || e.ValidateRecords? {
      StopSteps(env, m, e);
      StopsLeaveHeld(m, v);
      if w.phase.Parsed? {
        VerdictLeavesHeld(env, m, w.phase.sha, w.phase.version, v);
      }
    } else if e.FailData? || e.StagingFailed? || e.FinishDryRun? {
      MarkSteps(env, m, e);
      if w.phase.FileRejected? || w.phase.Parsing? || w.phase.Decided? {
        MarkingLeavesHeld(m.store, w.phase.version, Quarantined, v);
        MarkingLeavesHeld(m.store, w.phase.version, Rejected, v);
      }
    } else if e.ValidateFile? {
      FileStep(env, m);
    } else {
      StoreLeftAlone(env, m, e);
    }
  }

  lemma {:induction false} StopSteps(env: Env, m: Machine, e: Event)
    requires Working(m) && (e.StopInternal? || e.StopCancelled? || e.ValidateRecords?)
    ensures WorkerStep(env, m, e) == m
            || (e.StopInternal? && WorkerStep(env, m, e) == DoStopInternal(m))
            || (e.StopCancelled? && WorkerStep(env, m, e) == DoStopCancelled(m))
            || (e.ValidateRecords? && m.worker.value.phase.Parsed?
                && WorkerStep(env, m, e) == DoValidateRecords(env, m, m.worker.value.phase.sha, m.worker.value.phase.version))
  {
    hide DoStopInternal, DoStopCancelled, DoValidateRecords, Cancellable;
  }

  lemma {:induction false} MarkSteps(env: Env, m: Machine, e: Event)
    requires Working(m) && (e.FailData? || e.StagingFailed? || e.FinishDryRun?)
    ensures var p, st' := m.worker.value.phase, WorkerStep(env, m, e).store;
            || st' == m.store
            || ((p.FileRejected? || p.Parsing?) && st' == CloseVersion(m.store, p.version, Quarantined))
            || (p.Decided? && st' == MarkVersion(m.store, p.version, Rejected))
  {
    hide CloseVersion, MarkVersion;
  }

  lemma {:induction false} FileStep(env: Env, m: Machine)
    requires Working(m)
    ensures var vs, vs' := m.store.versions, WorkerStep(env, m, ValidateFile).store.versions;
            vs' == vs || (|vs'| == |vs| + 1 && vs'[..|vs|] == vs && vs'[|vs|].status == Candidate)
  {
    hide MaxSeq, FileGood;
  }

  /** The remaining steps of a worker do not write to the published data or the versions. */
  lemma {:induction false} StoreLeftAlone(env: Env, m: Machine, e: Event)
    requires OfWorker(e) && Working(m) && !Publishes(m, e)
    requires !e.StopInternal? && !e.StopCancelled? && !e.ValidateRecords? && !e.FailData? && !e.StagingFailed? && !e.FinishDryRun? && !e.ValidateFile?
    ensures WorkerStep(env, m, e).store == m.store
  {
    hide DoPublish, DoPublishHeld, FirstByKey, PendingSame, SameAsPublished, Checkpoint;
  }

  lemma {:induction false} MarkingLeavesHeld(st: Store, w: nat, status: VersionStatus, v: nat)
    requires v < |st.versions| && st.versions[v].status == Held
    ensures v < |CloseVersion(st, w, status).versions| && CloseVersion(st, w, status).versions[v].status == Held
    ensures v < |MarkVersion(st, w, status).versions| && (w != v ==> MarkVersion(st, w, status).versions[v].status == Held)
  {
  }

  lemma {:induction false} WorkerLeavesHeld(env: Env, m: Machine, e: Event, v: nat)
    requires MachineOk(env, m) && CanRelease(m, v) && IsHeld(m, v) && OfWorker(e) && Working(m) && !Publishes(m, e)
    ensures IsHeld(WorkerStep(env, m, e), v)
  {
    if m.worker.value.phase.Decided? {
      OwnDryRun(env, m, v);
    }
    hide MachineOk, CanRelease, WorkerStep;
    if m.worker.value.phase.Parsed? {
      ParsedFacts(env, m);
    }
    OthersLeftHeld(env, m, e, v);
  }

  /** The version a dry run decided on is not a releasable one. */
  lemma {:induction false} OwnDryRun(env: Env, m: Machine, v: nat)
    requires MachineOk(env, m) && CanRelease(m, v) && IsHeld(m, v) && Working(m) && m.worker.value.phase.Decided?
    ensures m.worker.value.phase.version != v
  {
    var w := m.worker.value.phase.version;
    if w == v {
      assert VersionsLinked(m.store.versions, m.runs);
      if BeingReleased(m.runs, v) {
        var r := TheRelease(env, m, v);
      } else {
        var p := OneProposal(env, m, v);
      }
    }
  }

  lemma {:induction false} WorkerStrandsIff(env: Env, m: Machine, e: Event, v: nat)
    requires MachineOk(env, m) && IsHeld(m, v) && CanRelease(m, v) && OfWorker(e) && Working(m) && !Publishes(m, e)
    ensures IsHeld(WorkerStep(env, m, e), v)
    ensures !CanRelease(WorkerStep(env, m, e), v) <==> Strands(m, e, v)
  {
    hide MachineOk, WorkerStep, Publishes, Strands, BeingReleased, AwaitsRelease, IsHeld;
    WorkerLeavesHeld(env, m, e, v);
    if BeingReleased(m.runs, v) {
      ReleaseSteps(env, m, e, v);
    } else {
      WorkerProposes(env, m, e);
      StillAwaited(m.store.proposals, WorkerStep(env, m, e).store.proposals, v);
      NotReleasing(env, m, e, v);
    }
  }

  lemma {:induction false} NotReleasing(env: Env, m: Machine, e: Event, v: nat)
    requires MachineOk(env, m) && !BeingReleased(m.runs, v) && OfWorker(e) && Working(m) && !Publishes(m, e)
    ensures !Strands(m, e, v)
  {
    hide TablesOk, PhaseOk;
  }

  // ---------------------------------------------------------------------------------------------
  // The other transactions
  // ---------------------------------------------------------------------------------------------

  lemma {:induction false} StillReleased(runs: seq<Run>, runs': seq<Run>, r: nat, v: nat)
    requires r < |runs'| && runs'[r].kind == ReleaseHeld(v) && Active(runs'[r].status)
    ensures BeingReleased(runs', v)
  {
  }

  /** Abandoning the release of `v` leaves it a way out exactly when the run is resumed. */
  lemma {:induction false} ReclaimStrandsIff(env: Env, m: Machine, r: nat, now: int, v: nat)
    requires MachineOk(env, m) && Releases(m, r, v) && m.runs[r].status == Running
    ensures IsHeld(DoReclaim(m, r, now), v)
    ensures !CanRelease(DoReclaim(m, r, now), v) <==> m.runs[r].attempt > MAX_RESUMES || !m.active
  {
    var runs' := DoReclaim(m, r, now).runs;
    assert TablesOk(env, m);
    ReleaseStillHeld(env, m, r, v);
    SpentApproval(env, m, v);
    assert OneActive(m.runs) && OneSource(m.runs, m.source) && QueueOk(m.runs);
    hide MachineOk, AwaitsRelease, TablesOk, QueueOk;
    ReclaimResumesIff(m.runs, r, m.active, now);
    ReclaimRows(m.runs, r, m.active, now);
    hide Reclaim;
    if |runs'| == |m.runs| + 1 {
      StillReleased(m.runs, runs', |m.runs|, v);
    } else {
      NoneReleasedAfter(m.runs, r, m.runs[r].(status := Abandoned), v);
    }
  }

  /** Abandoning another run leaves a pending release alone. */
  lemma {:induction false} ReclaimOfOther(env: Env, m: Machine, r: nat, now: int, v: nat)
    requires MachineOk(env, m) && IsHeld(m, v) && CanRelease(m, v) && !Releases(m, r, v) && r < |m.runs| && m.runs[r].status == Running
    ensures IsHeld(DoReclaim(m, r, now), v) && CanRelease(DoReclaim(m, r, now), v)
  {
    if BeingReleased(m.runs, v) {
      var q := TheRelease(env, m, v);
    }
    hide MachineOk, AwaitsRelease, Reclaim;
  }

  lemma {:induction false} CancelStrandsIff(env: Env, m: Machine, r: nat, v: nat)
    requires MachineOk(env, m) && IsHeld(m, v) && CanRelease(m, v) && r < |m.runs|
    ensures !CanRelease(Step(env, m, RequestCancel(r)), v) <==> Releases(m, r, v) && m.runs[r].status == Queued
  {
    hide MachineOk, Step, BeingReleased, AwaitsRelease;
    CancelRow(env, m, r);
    if Releases(m, r, v) && m.runs[r].status == Queued {
      CancelledReleaseStrands(env, m, r, v);
    } else if BeingReleased(m.runs, v) {
      var q := TheRelease(env, m, v);
      StillReleased(m.runs, Step(env, m, RequestCancel(r)).runs, q, v);
    }
  }

  lemma {:induction false} CancelRow(env: Env, m: Machine, r: nat)
    requires r < |m.runs|
    ensures Step(env, m, RequestCancel(r)) == m.(runs := m.runs[r := CancelRun(m.runs[r])])
  {
  }

  /** A change to one run that keeps its kind and does not end it keeps a release under way. */
  lemma {:induction false} RowKeepsRelease(runs: seq<Run>, r: nat, run: Run, v: nat)
    requires BeingReleased(runs, v) && r < |runs| && run.kind == runs[r].kind && (Active(runs[r].status) ==> Active(run.status))
    ensures BeingReleased(runs[r := run], v)
  {
    var q :| 0 <= q < |runs| && runs[q].kind == ReleaseHeld(v) && Active(runs[q].status);
    StillReleased(runs, runs[r := run], q, v);
  }

  lemma {:induction false} AppendKeepsRelease(runs: seq<Run>, run: Run, v: nat)
    requires BeingReleased(runs, v)
    ensures BeingReleased(runs + [run], v)
  {
    var q :| 0 <= q < |runs| && runs[q].kind == ReleaseHeld(v) && Active(runs[q].status);
    StillReleased(runs, runs + [run], q, v);
  }

  /** Closing another proposal leaves this one open. */
  lemma {:induction false} OtherClosed(ps: seq<Proposal>, p: nat, prop: Proposal, v: nat)
    requires AwaitsRelease(ps, v) && p < |ps| && ps[p].subject != LargeChangeRelease(v)
    ensures AwaitsRelease(ps[p := prop], v)
  {
    var q :| 0 <= q < |ps| && ps[q].subject == LargeChangeRelease(v) && ps[q].status == Awaiting;
    assert ps[p := prop][q] == ps[q];
  }

  lemma {:induction false} DeclineStrands(env: Env, m: Machine, p: nat, prop: Proposal, v: nat)
    requires MachineOk(env, m) && p < |m.store.proposals| && m.store.proposals[p].subject == LargeChangeRelease(v)
    requires m.store.proposals[p].status == Awaiting && prop.status != Awaiting && prop.subject == LargeChangeRelease(v)
    ensures !AwaitsRelease(m.store.proposals[p := prop], v) && !BeingReleased(m.runs, v)
  {
    assert AwaitsRelease(m.store.proposals, v);
    var q := OneProposal(env, m, v);
    if BeingReleased(m.runs, v) {
      OneWayOut(env, m, v);
    }
    hide MachineOk, BeingReleased;
  }

  lemma {:induction false} DecideStrandsIff(env: Env, m: Machine, p: nat, reviewer: Actor, role: Role, approve: bool,
                                            resolution: Option<Resolution>, batch: nat, now: int, v: nat)
    requires MachineOk(env, m) && IsHeld(m, v) && CanRelease(m, v) && p < |m.store.proposals|
    ensures var m' := DoDecide(m, p, reviewer, role, approve, resolution, batch, now);
            && IsHeld(m', v)
            && (!CanRelease(m', v) <==>
                  !approve && m.store.proposals[p].subject == LargeChangeRelease(v) && MayReview(m.store.proposals[p], reviewer, role))
  {
    var prop := m.store.proposals[p];
    hide MachineOk, DoDecide, BeingReleased, AwaitsRelease, MayReview;
    DecisionShape(m, p, reviewer, role, approve, resolution, batch, now);
    if MayReview(prop, reviewer, role) {
      AwaitingOne(prop, reviewer, role);
      if prop.subject == LargeChangeRelease(v) {
        OwnDecision(env, m, p, reviewer, role, approve, resolution, batch, now, v);
      } else {
        OtherDecision(env, m, p, reviewer, role, approve, resolution, batch, now, v);
      }
    }
  }

  /** What a decision does to the proposal and to the queue. */
  lemma {:induction false} DecisionShape(m: Machine, p: nat, reviewer: Actor, role: Role, approve: bool,
                                         resolution: Option<Resolution>, batch: nat, now: int)
    requires p < |m.store.proposals|
    ensures var m', prop := DoDecide(m, p, reviewer, role, approve, resolution, batch, now), m.store.proposals[p];
            var declined, applied := prop.(status := Declined, reviewedBy := Some(reviewer)), prop.(status := Applied, reviewedBy := Some(reviewer));
            && m'.store.versions == m.store.versions && |m.runs| <= |m'.runs| && m'.runs[..|m.runs|] == m.runs
            && (!MayReview(prop, reviewer, role) ==> m' == m)
            && (MayReview(prop, reviewer, role) && !approve ==>
                  m'.runs == m.runs && m'.store.proposals == m.store.proposals[p := declined])
            && (MayReview(prop, reviewer, role) && approve && prop.subject.LargeChangeRelease? && Busy(m.runs, m.source) ==> m' == m)
            && (MayReview(prop, reviewer, role) && approve && !(prop.subject.LargeChangeRelease? && Busy(m.runs, m.source)) ==>
                  m'.store.proposals == m.store.proposals[p := applied])
            && (MayReview(prop, reviewer, role) && approve && prop.subject.LargeChangeRelease? && !Busy(m.runs, m.source) ==>
                  |m'.runs| == |m.runs| + 1 && m'.runs[|m.runs|].kind == ReleaseHeld(prop.subject.version) && m'.runs[|m.runs|].status == Queued)
  {
    hide Busy, MayReview, Outcome;
  }

  lemma {:induction false} AwaitingOne(p: Proposal, reviewer: Actor, role: Role)
    requires MayReview(p, reviewer, role)
    ensures p.status == Awaiting
  {
  }

  lemma {:induction false} OwnDecision(env: Env, m: Machine, p: nat, reviewer: Actor, role: Role, approve: bool,
                                       resolution: Option<Resolution>, batch: nat, now: int, v: nat)
    requires MachineOk(env, m) && CanRelease(m, v) && p < |m.store.proposals|
    requires m.store.proposals[p].subject == LargeChangeRelease(v) && MayReview(m.store.proposals[p], reviewer, role)
    ensures CanRelease(DoDecide(m, p, reviewer, role, approve, resolution, batch, now), v) <==> approve
  {
    hide MachineOk, DoDecide, BeingReleased, AwaitsRelease, MayReview, Busy;
    var m', prop := DoDecide(m, p, reviewer, role, approve, resolution, batch, now), m.store.proposals[p];
    DecisionShape(m, p, reviewer, role, approve, resolution, batch, now);
    AwaitingOne(prop, reviewer, role);
    if !approve {
      DeclineStrands(env, m, p, prop.(status := Declined, reviewedBy := Some(reviewer)), v);
    } else if !Busy(m.runs, m.source) {
      StillReleased(m.runs, m'.runs, |m.runs|, v);
    }
  }

  lemma {:induction false} OtherDecision(env: Env, m: Machine, p: nat, reviewer: Actor, role: Role, approve: bool,
                                         resolution: Option<Resolution>, batch: nat, now: int, v: nat)
    requires MachineOk(env, m) && CanRelease(m, v) && p < |m.store.proposals|
    requires m.store.proposals[p].subject != LargeChangeRelease(v) && MayReview(m.store.proposals[p], reviewer, role)
    ensures CanRelease(DoDecide(m, p, reviewer, role, approve, resolution, batch, now), v)
  {
    hide MachineOk, DoDecide, BeingReleased, AwaitsRelease, MayReview, Busy;
    var m', prop := DoDecide(m, p, reviewer, role, approve, resolution, batch, now), m.store.proposals[p];
    DecisionShape(m, p, reviewer, role, approve, resolution, batch, now);
    if AwaitsRelease(m.store.proposals, v) {
      OtherClosed(m.store.proposals, p, prop.(status := Declined, reviewedBy := Some(reviewer)), v);
      OtherClosed(m.store.proposals, p, prop.(status := Applied, reviewedBy := Some(reviewer)), v);
    } else {
      var r := TheRelease(env, m, v);
      assert m'.runs[..|m.runs|][r] == m.runs[r];
      StillReleased(m.runs, m'.runs, r, v);
    }
  }

  lemma {:induction false} TableStrandsIff(env: Env, m: Machine, e: Event, v: nat)
    requires MachineOk(env, m) && IsHeld(m, v) && CanRelease(m, v) && !OfWorker(e)
    ensures IsHeld(TableStep(m, e), v)
    ensures !CanRelease(TableStep(m, e), v) <==> Strands(m, e, v)
  {
    hide MachineOk, AwaitsRelease, BeingReleased, DoDecide, DoReclaim, Busy, HoldsVersion, AwaitingConfirmation;
    match e {
      case RequestCancel(r) =>
        if r < |m.runs| { CancelStrandsIff(env, m, r, v); }
      case ReclaimRun(r, now) =>
        if r < |m.runs| && LeaseExpired(m.runs[r], now) && m.worker.None? {
          if Releases(m, r, v) { ReclaimStrandsIff(env, m, r, now, v); } else { ReclaimOfOther(env, m, r, now, v); }
        }
      case AssessRemoval(c, evidence, hits, suspects, who) =>
        if AwaitsRelease(m.store.proposals, v) {
          StillAwaited(m.store.proposals, TableStep(m, e).store.proposals, v);
        }
      case Decide(p, reviewer, role, approve, resolution, batch, now) =>
        if p < |m.store.proposals| { DecideStrandsIff(env, m, p, reviewer, role, approve, resolution, batch, now, v); }
      case _ =>
        QueueStepStrandsNothing(m, e, v);
    }
  }

  /** Neither does a run queued, claimed or kept alive. */
  lemma {:induction false} QueueStepStrandsNothing(m: Machine, e: Event, v: nat)
    requires IsHeld(m, v) && CanRelease(m, v)
    requires !OfWorker(e) && !e.RequestCancel? && !e.ReclaimRun? && !e.AssessRemoval? && !e.Decide?
    ensures IsHeld(TableStep(m, e), v) && CanRelease(TableStep(m, e), v) && !Strands(m, e, v)
  {
    hide AwaitsRelease, BeingReleased, DoDecide, DoReclaim, Busy;
    if BeingReleased(m.runs, v) {
      match e {
        case EnqueueIngest(options, who, batch, now, notBefore) =>
          AppendKeepsRelease(m.runs, NewRun(m.source, ListIngest, options, who, batch, now, notBefore), v);
        case Claim(r, worker, now, lease) =>
          if r < |m.runs| { RowKeepsRelease(m.runs, r, ClaimRun(m.runs[r], worker, now, lease), v); }
        case Heartbeat(r, worker, now, lease) =>
          if r < |m.runs| { RowKeepsRelease(m.runs, r, BeatRun(m.runs[r], worker, now, lease), v); }
        case _ =>
      }
    }
  }

  lemma {:induction false} PublishStrandsIff(env: Env, m: Machine, e: Event, v: nat)
    requires MachineOk(env, m) && IsHeld(m, v) && Publishes(m, e)
    ensures IsHeld(Step(env, m, e), v) && !CanRelease(Step(env, m, e), v) <==> Strands(m, e, v)
  {
    hide MachineOk, Step, ExpireProposals, CanRelease, PublishedVersion, PublishVersions, Me;
    PublishedTables(env, m, e);
    if v != PublishedVersion(m) {
      PublishStrandsNewer(env, m, e, v);
    } else {
      PublishedIsNotHeld(m.store.versions, v, Releaser(m));
    }
  }

  lemma {:induction false} PublishedIsNotHeld(vs: seq<Version>, v: nat, releasedBy: Option<Actor>)
    requires v < |vs|
    ensures |PublishVersions(vs, v, releasedBy)| == |vs| && PublishVersions(vs, v, releasedBy)[v].status != Held
  {
  }

  /** A releasable held version is stranded by exactly the listed transactions, in every state the system can be in. */
  lemma {:induction false} StrandedIff(env: Env, m: Machine, e: Event, v: nat)
    requires MachineOk(env, m) && IsHeld(m, v) && CanRelease(m, v)
    ensures IsHeld(Step(env, m, e), v) && !CanRelease(Step(env, m, e), v) <==> Strands(m, e, v)
  {
    hide MachineOk, CanRelease, WorkerStep, TableStep, IsHeld;
    if Publishes(m, e) {
      PublishStrandsIff(env, m, e, v);
    } else if OfWorker(e) {
      if Working(m) {
        WorkerStrandsIff(env, m, e, v);
      }
    } else {
      TableStrandsIff(env, m, e, v);
    }
  }

  // ---------------------------------------------------------------------------------------------
  // How a version comes to be held, and a whole history
  // ---------------------------------------------------------------------------------------------

  /** The worker is about to hear that its staged list is a large change. */
  predicate Holds(env: Env, m: Machine, e: Event, v: nat) {
    && e.ValidateRecords? && Working(m) && m.worker.value.phase.Parsed? && m.worker.value.phase.version == v
    && var w := m.worker.value;
       VerdictOn(env, w.cfg, w.phase.sha, Open(m.store.rows), StagedOf(m, w.run)) == V.Hold
  }

  lemma {:induction false} NothingForUnfinished(env: Env, m: Machine, v: nat)
    requires MachineOk(env, m) && v < |m.store.versions| && Unfinished(m.store.versions[v].status)
    ensures !CanRelease(m, v)
  {
    if AwaitsRelease(m.store.proposals, v) {
      var p := OneProposal(env, m, v);
    } else {
      assert ReleasesOk(m.runs, m.store.versions, m.store.proposals);
    }
  }

  /** A held version starts with a way out exactly when the run is no dry run: a dry run files no proposal. */
  lemma {:induction false} HeldWithAWayOutIff(env: Env, m: Machine, v: nat)
    requires MachineOk(env, m) && Holds(env, m, ValidateRecords, v)
    ensures IsHeld(Step(env, m, ValidateRecords), v)
    ensures CanRelease(Step(env, m, ValidateRecords), v) <==> !Me(m).options.dryRun
  {
    hide MachineOk, Step, VerdictOn, NoneActivated, BeingReleased, AwaitsRelease, CanRelease;
    ParsedFacts(env, m);
    NothingForUnfinished(env, m, v);
    HoldingStep(env, m, v);
    WorkerRunning(env, m);
    WayOutAfterHold(env, m, v);
  }

  /** Two ways to hold: with a proposal for a reviewer, or in a dry run without one. */
  lemma {:induction false} HoldingStep(env: Env, m: Machine, v: nat)
    requires Holds(env, m, ValidateRecords, v) && v < |m.store.versions|
    ensures var m' := Step(env, m, ValidateRecords);
            && IsHeld(m', v)
            && m'.store.proposals == m.store.proposals
                 + (if Me(m).options.dryRun then [] else [Proposal(LargeChangeRelease(v), VALIDATOR, Awaiting, None)])
  {
    hide VerdictOn;
  }

  lemma {:induction false} WayOutAfterHold(env: Env, m: Machine, v: nat)
    requires Holds(env, m, ValidateRecords, v) && v < |m.store.versions| && !CanRelease(m, v) && Me(m).status == Running
    ensures CanRelease(Step(env, m, ValidateRecords), v) <==> !Me(m).options.dryRun
  {
    var m', p := Step(env, m, ValidateRecords), Proposal(LargeChangeRelease(v), VALIDATOR, Awaiting, None);
    HoldingStep(env, m, v);
    VerdictAt(env, m, v);
    VerdictActivatesNone(env, m, m.worker.value.phase.sha, v);
    hide Step, Holds, NoneActivated, BeingReleased, VerdictOn, DoValidateRecords;
    NoneActivatedStays(m.runs, m'.runs, v);
    if !Me(m).options.dryRun {
      assert m'.store.proposals[|m.store.proposals|] == p;
    } else {
      assert m'.store.proposals == m.store.proposals;
    }
  }

  lemma {:induction false} VerdictAt(env: Env, m: Machine, v: nat)
    requires Holds(env, m, ValidateRecords, v)
    ensures Working(m) && Step(env, m, ValidateRecords) == DoValidateRecords(env, m, m.worker.value.phase.sha, v)
  {
    hide VerdictOn, DoValidateRecords;
  }

  /** No version is held that was not, unless the gate says so. */
  ghost predicate HoldsNoMore(st: Store, st': Store) {
    forall v :: 0 <= v < |st'.versions| && st'.versions[v].status == Held ==> v < |st.versions| && st.versions[v].status == Held
  }

  lemma {:induction false} StopsHoldNoMore(m: Machine)
    requires Working(m)
    ensures HoldsNoMore(m.store, DoStopInternal(m).store) && HoldsNoMore(m.store, DoStopCancelled(m).store)
  {
  }

  lemma {:induction false} WorkerHoldsNoMore(env: Env, m: Machine, e: Event)
    requires OfWorker(e) && Working(m) && !Publishes(m, e) && !(e.ValidateRecords? && m.worker.value.phase.Parsed?)
    ensures HoldsNoMore(m.store, WorkerStep(env, m, e).store)
  {
    hide HoldsNoMore;
    StopsHoldNoMore(m);
    SameHoldsNoMore(m.store);
    WorkerMarks(env, m, e);
  }

  lemma {:induction false} SameHoldsNoMore(st: Store)
    ensures HoldsNoMore(st, st)
  {
  }

  lemma {:induction false} MarkedHoldsNoMore(st: Store, v: nat, status: VersionStatus)
    requires status != Held
    ensures HoldsNoMore(st, MarkVersion(st, v, status)) && HoldsNoMore(st, CloseVersion(st, v, status))
  {
  }

  lemma {:induction false} GrownHoldsNoMore(st: Store, st': Store)
    requires st'.versions == st.versions
             || (|st'.versions| == |st.versions| + 1 && st'.versions[..|st.versions|] == st.versions && st'.versions[|st.versions|].status != Held)
    ensures HoldsNoMore(st, st')
  {
    assert forall i :: 0 <= i < |st.versions| ==> st'.versions[i] == st'.versions[..|st.versions|][i];
  }

  lemma {:induction false} WorkerMarks(env: Env, m: Machine, e: Event)
    requires OfWorker(e) && Working(m) && !Publishes(m, e) && !(e.ValidateRecords? && m.worker.value.phase.Parsed?)
    requires HoldsNoMore(m.store, DoStopInternal(m).store) && HoldsNoMore(m.store, DoStopCancelled(m).store) && HoldsNoMore(m.store, m.store)
    ensures HoldsNoMore(m.store, WorkerStep(env, m, e).store)
  {
    hide HoldsNoMore, WorkerStep, Publishes, DoStopInternal, DoStopCancelled, DoValidateRecords, CloseVersion, MarkVersion;
    var w := m.worker.value;
    if e.StopInternal? || e.StopCancelled? || e.ValidateRecords? {
      StopSteps(env, m, e);
    } else if e.FailData? || e.StagingFailed? || e.FinishDryRun? {
      MarkSteps(env, m, e);
      if w.phase.FileRejected? || w.phase.Parsing? || w.phase.Decided? {
        MarkedHoldsNoMore(m.store, w.phase.version, Quarantined);
        MarkedHoldsNoMore(m.store, w.phase.version, Rejected);
      }
    } else if e.ValidateFile? {
      FileStep(env, m);
      GrownHoldsNoMore(m.store, WorkerStep(env, m, e).store);
    } else {
      StoreLeftAlone(env, m, e);
    }
  }

  lemma {:induction false} TableHoldsNoMore(m: Machine, e: Event)
    requires !OfWorker(e)
    ensures HoldsNoMore(m.store, TableStep(m, e).store)
  {
    hide Reclaim, Enqueue, Busy, BeatRun, CancelRun, HoldsVersion, AwaitingConfirmation, Outcome;
  }

  lemma {:induction false} PublishHoldsNoMore(env: Env, m: Machine, e: Event)
    requires MachineOk(env, m) && Publishes(m, e)
    ensures HoldsNoMore(m.store, Step(env, m, e).store)
  {
    PublishedTables(env, m, e);
    hide MachineOk, Step, PublishedVersion, ExpireProposals;
  }

  lemma {:induction false} VerdictHolds(env: Env, m: Machine, v: nat)
    requires Working(m) && m.worker.value.phase.Parsed? && !IsHeld(m, v) && IsHeld(Step(env, m, ValidateRecords), v)
    ensures Holds(env, m, ValidateRecords, v)
  {
    hide VerdictOn;
  }

  /** A version becomes held only by the gate's verdict on its run. */
  lemma {:induction false} BecomesHeld(env: Env, m: Machine, e: Event, v: nat)
    requires MachineOk(env, m) && !IsHeld(m, v) && IsHeld(Step(env, m, e), v)
    ensures Holds(env, m, e, v)
  {
    hide MachineOk, WorkerStep, TableStep, Holds, Publishes;
    if Publishes(m, e) {
      PublishHoldsNoMore(env, m, e);
    } else if OfWorker(e) && Working(m) {
      if e.ValidateRecords? && m.worker.value.phase.Parsed? {
        VerdictHolds(env, m, v);
      } else {
        WorkerHoldsNoMore(env, m, e);
      }
    } else if !OfWorker(e) {
      TableHoldsNoMore(m, e);
    }
  }

  /** The event leaves `v` held without a way out that it had, or holds it for a dry run, which never had one. */
  predicate Seals(env: Env, m: Machine, e: Event, v: nat) {
    || (IsHeld(m, v) && CanRelease(m, v) && Strands(m, e, v))
    || (Holds(env, m, e, v) && Me(m).options.dryRun)
  }

  /** In every history, a version that is held with no way out was stranded by one of these transactions. */
  lemma {:induction false} StrandedBy(env: Env, m: Machine, es: seq<Event>, v: nat) returns (n: nat)
    requires MachineOk(env, m) && (IsHeld(m, v) ==> CanRelease(m, v))
    requires IsHeld(Execute(env, m, es), v) && !CanRelease(Execute(env, m, es), v)
    ensures n < |es| && Seals(env, Execute(env, m, es[..n]), es[n], v)
  {
    hide MachineOk, Step, CanRelease, IsHeld, Strands, Holds;
    var last := |es| - 1;
    var before := Execute(env, m, es[..last]);
    ExecuteKeepsMachineOk(env, m, es[..last]);
    if !IsHeld(before, v) {
      BecomesHeld(env, before, es[last], v);
      SealedByDryRun(env, before, es[last], v);
      n := last;
    } else if CanRelease(before, v) {
      StrandedIff(env, before, es[last], v);
      n := last;
    } else {
      n := StrandedBy(env, m, es[..last], v);
      assert es[..last][..n] == es[..n];
    }
  }

  lemma {:induction false} SealedByDryRun(env: Env, m: Machine, e: Event, v: nat)
    requires MachineOk(env, m) && Holds(env, m, e, v) && !CanRelease(Step(env, m, e), v)
    ensures Working(m) && Me(m).options.dryRun
  {
    hide MachineOk, Step, CanRelease, VerdictOn;
    HeldWithAWayOutIff(env, m, v);
  }

  /**
   The ordinary way there: of two files held for review the older one is approved first. From every state in which
   the older one awaits review and no run is active, approving, claiming and publishing it strands the newer.
   */
  lemma {:induction false} ReleasingTheOlderStrandsTheNewer(
    env: Env, m: Machine, p: nat, older: nat, newer: nat, reviewer: Actor, worker: Actor, batch: nat, now: int, lease: nat)
    requires MachineOk(env, m) && older < newer && IsHeld(m, newer)
    requires p < |m.store.proposals| && m.store.proposals[p].subject == LargeChangeRelease(older)
    requires MayReview(m.store.proposals[p], reviewer, Reviewer) && !Busy(m.runs, m.source)
    ensures var es := [Decide(p, reviewer, Reviewer, true, None, batch, now), Claim(|m.runs|, worker, now, lease), PublishHeld];
            var m' := Execute(env, m, es);
            && older < |m'.store.versions| && m'.store.versions[older].status == Published
            && IsHeld(m', newer) && Stranded(m', newer)
  {
    hide MachineOk, Step, Execute, CanRelease, AwaitsRelease, Publishes, PublishedVersion, MayReview;
    var es := [Decide(p, reviewer, Reviewer, true, None, batch, now), Claim(|m.runs|, worker, now, lease), PublishHeld];
    ThreeSteps(env, m, es);
    var m1 := Step(env, m, es[0]);
    ApprovedRelease(env, m, p, older, reviewer, batch, now);
    var m2 := Step(env, m1, es[1]);
    StepKeepsMachineOk(env, m, es[0]);
    StepKeepsMachineOk(env, m1, es[1]);
    ClaimedRelease(env, m1, older, worker, now, lease);
    OlderPublished(env, m2, older, newer);
  }

  lemma {:induction false} OlderPublished(env: Env, m: Machine, older: nat, newer: nat)
    requires MachineOk(env, m) && Publishes(m, PublishHeld) && PublishedVersion(m) == older < newer && IsHeld(m, newer)
    ensures var m' := Step(env, m, PublishHeld);
            && older < |m'.store.versions| && m'.store.versions[older].status == Published
            && IsHeld(m', newer) && Stranded(m', newer)
  {
    hide MachineOk, Step, ExpireProposals, CanRelease, PublishedVersion;
    PublishedTables(env, m, PublishHeld);
    PublishStrandsNewer(env, m, PublishHeld, newer);
  }

  lemma {:induction false} ThreeSteps(env: Env, m: Machine, es: seq<Event>)
    requires |es| == 3
    ensures Execute(env, m, es) == Step(env, Step(env, Step(env, m, es[0]), es[1]), es[2])
  {
    hide Step;
    assert es[..2][..1] == es[..1] && es[..1][..0] == [];
    assert Execute(env, m, es[..1]) == Step(env, m, es[0]);
    assert Execute(env, m, es[..2]) == Step(env, Execute(env, m, es[..1]), es[1]);
  }

  lemma {:induction false} ApprovedRelease(env: Env, m: Machine, p: nat, older: nat, reviewer: Actor, batch: nat, now: int)
    requires p < |m.store.proposals| && m.store.proposals[p].subject == LargeChangeRelease(older)
    requires MayReview(m.store.proposals[p], reviewer, Reviewer) && !Busy(m.runs, m.source)
    ensures var m1 := Step(env, m, Decide(p, reviewer, Reviewer, true, None, batch, now));
            && |m1.runs| == |m.runs| + 1 && m1.runs[|m.runs|].kind == ReleaseHeld(older) && Claimable(m1.runs[|m.runs|], now)
            && m1.store.versions == m.store.versions
  {
    hide Busy;
  }

  lemma {:induction false} ClaimedRelease(env: Env, m: Machine, older: nat, worker: Actor, now: int, lease: nat)
    requires m.runs != [] && m.runs[|m.runs| - 1].kind == ReleaseHeld(older) && Claimable(m.runs[|m.runs| - 1], now)
    ensures var m2 := Step(env, m, Claim(|m.runs| - 1, worker, now, lease));
            Publishes(m2, PublishHeld) && PublishedVersion(m2) == older && m2.store == m.store
  {
  }
}
