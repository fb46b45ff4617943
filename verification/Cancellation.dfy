/**
 Cancellation. A run ends cancelled only if somebody asked for it, and a release that a worker has taken up is never
 cancelled, whatever is asked.
 */
module Cancellation {
  import opened Base
  import opened Canonical
  import opened ListStore
  import opened Staging
  import opened RunQueue
  import opened Pipeline
  import opened PipelineInvariant
  import opened PipelineSteps
  import opened Stranding

  /** A cancelled run was asked to stop; a cancelled release was never taken up. */
  predicate AskedFor(r: Run) {
    r.status == Cancelled ==> r.cancelRequested && (r.kind.ReleaseHeld? ==> r.claims == 0)
  }

  ghost predicate NoneUnasked(runs: seq<Run>) { forall i :: 0 <= i < |runs| ==> AskedFor(runs[i]) }

  /** The code looks for a request before the step that follows this phase. */
  predicate Looks(runs: seq<Run>, r: Run, p: Phase) {
    match p
    case Fetching => Checkpoint(runs, r).None?
    case FileRejected(_, _) => false
    case Decided(_, _, _) => !r.options.dryRun
    case Releasing => false
    case _ => true
  }

  /**
   Looking for a request ends the run exactly when there is one and the run is between two steps at which the code
   looks: not when it resumes from a checkpoint instead of fetching, has a rejected file to report, is finishing a dry
   run, or releases a held version. What it had begun is closed and its staging dropped.
   */
  lemma {:induction false} CancelledIff(env: Env, m: Machine)
    requires MachineOk(env, m) && Working(m)
    ensures var w, r, m' := m.worker.value, Me(m), Step(env, m, StopCancelled);
            var stops := r.cancelRequested && Looks(m.runs, r, w.phase);
            && w.run < |m'.runs|
            && (m'.runs[w.run].status == Cancelled <==> stops)
            && (stops ==> m'.worker.None? && w.run !in m'.staging)
            && (!stops ==> m' == m)
  {
    hide MachineOk, DoStopCancelled, Looks, Cancellable;
    WorkerRunning(env, m);
    StopsCleanly(m);
    CancellableIff(m);
  }

  lemma {:induction false} CancellableIff(m: Machine)
    requires Working(m)
    ensures Cancellable(m) <==> Me(m).cancelRequested && Looks(m.runs, Me(m), m.worker.value.phase)
  {
    hide Checkpoint;
  }

  lemma {:induction false} StopsCleanly(m: Machine)
    requires Working(m)
    ensures var w, m' := m.worker.value, DoStopCancelled(m);
            && |m'.runs| == |m.runs| && m'.runs[w.run].status == Cancelled && m'.worker.None? && w.run !in m'.staging
  {
    hide CloseVersion;
  }

  /** Only the worker's own run changed, and it was not cancelled. */
  ghost predicate OwnRun(m: Machine, m': Machine) {
    && Working(m) && |m'.runs| == |m.runs| && m'.runs[m.worker.value.run].status != Cancelled
    && forall i :: 0 <= i < |m.runs| && i != m.worker.value.run ==> m'.runs[i] == m.runs[i]
  }

  lemma {:induction false} FetchKeepsToItsRun(env: Env, m: Machine, e: Event)
    requires Working(m) && Me(m).status == Running && (e.FetchAndArchive? || e.ReuseArchive?)
    ensures OwnRun(m, WorkerStep(env, m, e))
  {
    hide SameAsPublished, PendingSame, Checkpoint;
  }

  lemma {:induction false} PublishKeepsToItsRun(m: Machine, v: nat, staged: seq<Rec>, who: Option<Actor>)
    requires Working(m) && Me(m).status == Running
    ensures OwnRun(m, DoPublish(m, v, staged, who)) && OwnRun(m, DoStopInternal(m))
  {
    hide Publish, CloseVersion;
  }

  lemma {:induction false} EndKeepsToItsRun(env: Env, m: Machine, e: Event)
    requires Working(m) && Me(m).status == Running && (e.DiffPublish? || e.PublishHeld? || e.StopInternal?)
    ensures OwnRun(m, WorkerStep(env, m, e))
  {
    hide DoPublish, DoStopInternal, StagedOf;
    PublishKeepsToItsRun(m, 0, [], None);
    forall v, staged, who ensures OwnRun(m, DoPublish(m, v, staged, who)) {
      PublishKeepsToItsRun(m, v, staged, who);
    }
  }

  lemma {:induction false} VerdictKeepsToItsRun(env: Env, m: Machine, e: Event)
    requires Working(m) && Me(m).status == Running && (e.ValidateRecords? || e.ValidateFile?)
    ensures OwnRun(m, WorkerStep(env, m, e))
  {
    hide VerdictOn, FileGood, MaxSeq, StagedOf;
  }

  lemma {:induction false} RestKeepsToItsRun(env: Env, m: Machine, e: Event)
    requires Working(m) && Me(m).status == Running && OfWorker(e) && !e.StopCancelled? && !e.FetchAndArchive? && !e.ReuseArchive?
    requires !e.DiffPublish? && !e.PublishHeld? && !e.StopInternal? && !e.ValidateRecords? && !e.ValidateFile?
    ensures OwnRun(m, WorkerStep(env, m, e))
  {
    hide FirstByKey, CloseVersion, MarkVersion, Checkpoint;
  }

  /** Every other step of a worker touches its own run only, and does not cancel it. */
  lemma {:induction false} OnlyThatCancels(env: Env, m: Machine, e: Event)
    requires Working(m) && Me(m).status == Running && OfWorker(e) && !e.StopCancelled?
    ensures OwnRun(m, WorkerStep(env, m, e))
  {
    hide OwnRun, WorkerStep, Working, Me;
    if e.FetchAndArchive? || e.ReuseArchive? {
      FetchKeepsToItsRun(env, m, e);
    } else if e.DiffPublish? || e.PublishHeld? || e.StopInternal? {
      EndKeepsToItsRun(env, m, e);
    } else if e.ValidateRecords? || e.ValidateFile? {
      VerdictKeepsToItsRun(env, m, e);
    } else {
      RestKeepsToItsRun(env, m, e);
    }
  }

  lemma {:induction false} ThatTouchesItsRun(env: Env, m: Machine)
    requires Working(m) && Me(m).status == Running && (Me(m).kind.ReleaseHeld? ==> m.worker.value.phase.Releasing?)
    ensures var r, runs' := m.worker.value.run, WorkerStep(env, m, StopCancelled).runs;
            && |runs'| == |m.runs| && AskedFor(runs'[r])
            && forall i :: 0 <= i < |m.runs| && i != r ==> runs'[i] == m.runs[i]
  {
    hide Checkpoint, CloseVersion;
  }

  lemma {:induction false} WorkerCancels(env: Env, m: Machine, e: Event)
    requires MachineOk(env, m) && NoneUnasked(m.runs) && OfWorker(e) && Working(m)
    ensures NoneUnasked(WorkerStep(env, m, e).runs)
  {
    WorkerReleases(env, m);
    WorkerRunning(env, m);
    hide MachineOk, WorkerStep;
    if e.StopCancelled? {
      ThatTouchesItsRun(env, m);
    } else {
      OnlyThatCancels(env, m, e);
    }
  }

  lemma {:induction false} TableCancels(env: Env, m: Machine, e: Event)
    requires MachineOk(env, m) && NoneUnasked(m.runs) && !OfWorker(e)
    ensures NoneUnasked(TableStep(m, e).runs)
  {
    if e.RequestCancel? {
      RequestCancels(env, m, e.run);
    } else if e.ReclaimRun? {
      ReclaimCancels(m, e.run, e.now);
    } else {
      hide MachineOk;
      OtherTableCancels(m, e);
    }
  }

  lemma {:induction false} OtherTableCancels(m: Machine, e: Event)
    requires NoneUnasked(m.runs) && !OfWorker(e) && !e.RequestCancel? && !e.ReclaimRun?
    ensures NoneUnasked(TableStep(m, e).runs)
  {
    hide Busy, HoldsVersion, Assess, Resolve, CloseProposal, MayReview;
  }

  lemma {:induction false} RequestCancels(env: Env, m: Machine, r: nat)
    requires MachineOk(env, m) && NoneUnasked(m.runs)
    ensures NoneUnasked(TableStep(m, RequestCancel(r)).runs)
  {
    if r < |m.runs| && m.runs[r].status == Queued {
      QueuedIsUnclaimed(env, m, r);
    }
    hide MachineOk;
  }

  lemma {:induction false} ReclaimCancels(m: Machine, r: nat, now: int)
    requires NoneUnasked(m.runs)
    ensures NoneUnasked(TableStep(m, ReclaimRun(r, now)).runs)
  {
    if r < |m.runs| {
      ReclaimRows(m.runs, r, m.active, now);
    }
    hide Busy, ChainLength;
  }

  lemma {:induction false} QueuedIsUnclaimed(env: Env, m: Machine, r: nat)
    requires MachineOk(env, m) && r < |m.runs| && m.runs[r].status == Queued
    ensures m.runs[r].claims == 0
  {
    assert QueueOk(m.runs);
    hide MachineOk;
    assert RunOk(m.runs, r);
  }

  /** In every history from a state where it held: no run is cancelled unasked, and no release in progress at all. */
  lemma {:induction false} NoneCancelledUnasked(env: Env, m: Machine, es: seq<Event>, r: nat)
    requires MachineOk(env, m) && NoneUnasked(m.runs) && r < |Execute(env, m, es).runs|
    ensures var run := Execute(env, m, es).runs[r];
            run.status == Cancelled ==> run.cancelRequested && (run.kind.ReleaseHeld? ==> run.claims == 0)
  {
    ExecuteKeepsNoneUnasked(env, m, es);
  }

  lemma {:induction false} ExecuteKeepsNoneUnasked(env: Env, m: Machine, es: seq<Event>)
    requires MachineOk(env, m) && NoneUnasked(m.runs)
    ensures NoneUnasked(Execute(env, m, es).runs)
  {
    hide MachineOk, NoneUnasked, WorkerStep, TableStep;
    if es != [] {
      var before, e := Execute(env, m, es[..|es| - 1]), es[|es| - 1];
      ExecuteKeepsMachineOk(env, m, es[..|es| - 1]);
      ExecuteKeepsNoneUnasked(env, m, es[..|es| - 1]);
      if OfWorker(e) {
        if Working(before) {
          WorkerCancels(env, before, e);
        }
      } else {
        TableCancels(env, before, e);
      }
    }
  }
}
