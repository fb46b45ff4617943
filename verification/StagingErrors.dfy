/**
 A failed write to staging. The parse loop takes whatever is raised inside it for a parser error, so a database error
 quarantines a file with which nothing is wrong, and an ordinary fetch of the same bytes then stops at it.
 */
module StagingErrors {
  import opened Canonical
  import opened ListStore
  import opened Staging
  import opened RunQueue
  import opened Pipeline
  import opened PipelineInvariant
  import opened PipelineSteps
  import opened PipelineTheorems
  import opened CrashTransparency
  import opened HeldVersions

  /** The error ends the run and quarantines its version; what is listed and held stays. */
  lemma {:induction false} StagingErrorQuarantines(env: Env, m: Machine)
    requires MachineOk(env, m) && Working(m) && m.worker.value.phase.Parsing?
    ensures var m', sha := Step(env, m, StagingFailed), m.worker.value.phase.sha;
            && m'.worker.None? && |m'.runs| == |m.runs| && m'.runs[m.worker.value.run].status == RunQuarantined
            && ListingOf(m'.store) == ListingOf(m.store) && m'.store.versions != []
            && var v := m'.store.versions[|m'.store.versions| - 1];
               v.run == m.worker.value.run && v.sha == sha && v.status == Quarantined
  {
    hide *;
    ParsingOwns(env, m);
    PublishesNothing(m);
    QuietStep(env, m, StagingFailed);
    StagingFailedCloses(env, m);
  }

  lemma {:induction false} PublishesNothing(m: Machine)
    ensures !Publishes(m, StagingFailed) && !Resolves(m, StagingFailed)
  {
  }

  lemma {:induction false} StagingFailedCloses(env: Env, m: Machine)
    requires Working(m) && m.worker.value.phase.Parsing? && Own(m, m.worker.value.phase.sha, m.worker.value.phase.version, Candidate)
    ensures var m', sha := Step(env, m, StagingFailed), m.worker.value.phase.sha;
            && m.worker.Some? && m'.worker.None? && |m'.runs| == |m.runs| && m.worker.value.run < |m.runs|
            && m'.runs[m.worker.value.run].status == RunQuarantined
            && m'.store.versions != []
            && var v := m'.store.versions[|m'.store.versions| - 1];
               v.run == m.worker.value.run && v.sha == sha && v.status == Quarantined
  {
  }

  lemma {:induction false} ParsingOwns(env: Env, m: Machine)
    requires MachineOk(env, m) && Working(m) && m.worker.value.phase.Parsing?
    ensures Own(m, m.worker.value.phase.sha, m.worker.value.phase.version, Candidate)
  {
    hide TablesOk, FirstByKey;
  }

  /** Fetching the same file again does not help: an ordinary run stops as quarantined, with nothing taken in. */
  lemma {:induction false} RefetchStopsAtError(env: Env, m: Machine, again: Machine, header: bool)
    requires MachineOk(env, m) && Working(m) && m.worker.value.phase.Parsing?
    requires again.store == Step(env, m, StagingFailed).store && Working(again)
    requires !Me(again).options.forceRefetch && !Me(again).options.dryRun && !SameAsPublished(again.store, m.worker.value.phase.sha)
    ensures var m' := DoArchive(again, m.worker.value.phase.sha, header);
            m'.worker.None? && m'.store == again.store && m'.runs[again.worker.value.run].status == RunQuarantined
  {
    var sha := m.worker.value.phase.sha;
    hide *;
    StagingErrorQuarantines(env, m);
    var v := |again.store.versions| - 1;
    QuarantinedIsPending(again.store.versions[v], sha);
    RefetchStopsAtHeld(again, sha, header, v);
  }

  lemma {:induction false} QuarantinedIsPending(v: Version, sha: Sha)
    requires v.sha == sha && v.status == Quarantined
    ensures HeldVersions.Pending(v, sha)
  {
  }

  // ---------------------------------------------------------------------------------------------
  // Nothing else quarantines a good file
  // ---------------------------------------------------------------------------------------------

  /** While the source is busy only an abandoned run's resumption is added to the queue. */
  lemma {:induction false} RunsNotGrown(env: Env, m: Machine, e: Event)
    requires Busy(m.runs, m.source) && !e.ReclaimRun?
    ensures |Step(env, m, e).runs| == |m.runs|
  {
    if OfWorker(e) {
      if Working(m) {
        WorkerAddsNoRun(env, m, e);
      }
    } else {
      TableAddsNoRun(m, e);
    }
  }

  lemma {:induction false} WorkerAddsNoRun(env: Env, m: Machine, e: Event)
    requires Working(m) && OfWorker(e)
    ensures |WorkerStep(env, m, e).runs| == |m.runs|
  {
    hide VerdictOn, FirstByKey, MaxSeq, FileGood, PendingSame, SameAsPublished, Checkpoint, CloseVersion, MarkVersion, Publish, Cancellable;
  }

  lemma {:induction false} TableAddsNoRun(m: Machine, e: Event)
    requires Busy(m.runs, m.source) && !OfWorker(e) && !e.ReclaimRun?
    ensures |TableStep(m, e).runs| == |m.runs|
  {
    hide Busy, HoldsVersion, Assess, Resolve, CloseProposal, MayReview;
  }

  lemma {:induction false} ReclaimedIsNotQuarantined(env: Env, m: Machine, r: nat, now: int, t: nat)
    requires t < |m.runs| && Active(m.runs[t].status)
    ensures t < |Step(env, m, ReclaimRun(r, now)).runs| && Step(env, m, ReclaimRun(r, now)).runs[t].status != RunQuarantined
  {
    if r < |m.runs| {
      ReclaimRows(m.runs, r, m.active, now);
    }
    hide Reclaim;
  }

  /** A step that leaves the job in flight has not quarantined its attempt. */
  lemma {:induction false} InFlightIsNotQuarantined(env: Env, job: Job, m: Machine, e: Event)
    requires MachineOk(env, m) && InFlight(env, job, m) && InFlight(env, job, Step(env, m, e))
    ensures 0 <= Tip(m) < |Step(env, m, e).runs| && Step(env, m, e).runs[Tip(m)].status != RunQuarantined
  {
    hide MachineOk, InFlight, Step;
    TipActive(env, job, m);
    if e.ReclaimRun? {
      ReclaimedIsNotQuarantined(env, m, e.run, e.now, Tip(m));
    } else {
      OnlyTipActive(env, job, m);
      RunsNotGrown(env, m, e);
      TipActive(env, job, Step(env, m, e));
    }
  }

  /** An ending of a file the checks let through is not a quarantine. */
  lemma {:induction false} EndedIsNotQuarantined(env: Env, job: Job, m: Machine, m': Machine)
    requires Ended(env, job, m, m') && !Rejects(env, job, Seen(job, Tip(m)))
    ensures 0 <= Tip(m) < |m'.runs| && m'.runs[Tip(m)].status != RunQuarantined
  {
    hide Rejects, VerdictOnJob, ListingOf, Ingest;
  }

  /**
   Exactly when a good file is quarantined: in any state of a job whose file passes the checks of the attempt at work,
   and for any event but a change of settings or a reclaim before the archive step, the attempt ends quarantined iff
   the event is a failed write to staging in the middle of parsing.
   */
  lemma {:induction false} QuarantinedThoughGoodIff(env: Env, job: Job, m: Machine, e: Event)
    requires MachineOk(env, m) && InFlight(env, job, m) && !Rejects(env, job, Seen(job, Tip(m)))
    requires e.StagingFailed? || Undisturbed(job, m, e)
    ensures 0 <= Tip(m) < |Step(env, m, e).runs|
    ensures Step(env, m, e).runs[Tip(m)].status == RunQuarantined <==>
              e.StagingFailed? && Working(m) && m.worker.value.phase.Parsing?
  {
    AttemptKept(env, job, m);
    if e.StagingFailed? {
      if Working(m) && m.worker.value.phase.Parsing? {
        WorkerHolds(env, job, m);
        hide InFlight, PhaseFits, Rejects;
        StagingErrorQuarantines(env, m);
      } else {
        NothingToFail(env, job, m);
      }
    } else {
      hide MachineOk, InFlight, Ended, Step, Rejects, Undisturbed;
      StepInFlight(env, job, m, e);
      if InFlight(env, job, Step(env, m, e)) {
        InFlightIsNotQuarantined(env, job, m, e);
      } else {
        EndedIsNotQuarantined(env, job, m, Step(env, m, e));
      }
    }
  }

  lemma {:induction false} NothingToFail(env: Env, job: Job, m: Machine)
    requires MachineOk(env, m) && InFlight(env, job, m) && !(Working(m) && m.worker.value.phase.Parsing?)
    ensures Step(env, m, StagingFailed) == m && 0 <= Tip(m) && m.runs[Tip(m)].status != RunQuarantined
  {
    hide MachineOk, InFlight;
    TipActive(env, job, m);
  }
}
