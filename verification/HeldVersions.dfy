/**
 Which held versions a reviewer can still release. A publish expires the release proposals of all other versions,
 so a version held after the one being released loses its only way out.
 */
module HeldVersions {
  import opened Base
  import opened Canonical
  import opened Scd2
  import opened ListStore
  import opened Staging
  import opened RunQueue
  import opened Pipeline
  import opened PipelineInvariant
  import opened PipelineSteps
  import opened PipelineTheorems

  predicate AwaitsRelease(ps: seq<Proposal>, v: nat) {
    exists p :: 0 <= p < |ps| && ps[p].subject == LargeChangeRelease(v) && ps[p].status == Awaiting
  }

  predicate BeingReleased(runs: seq<Run>, v: nat) {
    exists r :: 0 <= r < |runs| && runs[r].kind == ReleaseHeld(v) && Active(runs[r].status)
  }

  /** A reviewer can still approve the version, or an approval is on its way to being published. */
  predicate CanRelease(m: Machine, v: nat) {
    AwaitsRelease(m.store.proposals, v) || BeingReleased(m.runs, v)
  }

  /** A decided version nobody can release any more. */
  predicate Stranded(m: Machine, v: nat) {
    v < |m.store.versions| && !Unfinished(m.store.versions[v].status) && m.store.versions[v].status != Published && !CanRelease(m, v)
  }

  // ---------------------------------------------------------------------------------------------
  // A stranded version stays stranded
  // ---------------------------------------------------------------------------------------------

  lemma {:induction false} PublishKeepsStranded(env: Env, m: Machine, e: Event, v: nat)
    requires MachineOk(env, m) && Stranded(m, v) && Publishes(m, e)
    ensures Stranded(Step(env, m, e), v)
  {
    hide MachineOk, Content, ContentOf, PublishRows, NextRemovals, CrosslistOf, Step, PublishedVersion, AwaitsRelease, BeingReleased;
    PublishStep(env, m, e);
    StrandedIsNotPublished(env, m, e, v);
    ExpiredStays(m.store.proposals, PublishedVersion(m), v);
    FinishedStays(m.runs, m.worker.value.run, FinishRun(Me(m), Succeeded), v);
  }

  lemma {:induction false} StrandedIsNotPublished(env: Env, m: Machine, e: Event, v: nat)
    requires MachineOk(env, m) && Stranded(m, v) && Publishes(m, e)
    ensures PublishedVersion(m) != v
  {
    if m.worker.value.phase.Decided? {
      DecidedFacts(env, m);
      hide MachineOk;
    } else {
      WorkerRunning(env, m);
      ReleasingIsPublishable(env, m);
      hide MachineOk;
      assert BeingReleased(m.runs, Me(m).kind.version);
    }
  }

  lemma {:induction false} ExpiredStays(ps: seq<Proposal>, vid: nat, v: nat)
    requires !AwaitsRelease(ps, v)
    ensures !AwaitsRelease(ExpireProposals(ps, vid), v)
  {
    var ps' := ExpireProposals(ps, vid);
    forall p | 0 <= p < |ps'| && ps'[p].subject == LargeChangeRelease(v) ensures ps'[p].status != Awaiting {
      assert ps[p].subject == LargeChangeRelease(v);
    }
  }

  /** Changing one run without activating it starts no release. */
  lemma {:induction false} FinishedStays(runs: seq<Run>, r: nat, run: Run, v: nat)
    requires !BeingReleased(runs, v) && r < |runs| && run.kind == runs[r].kind && (Active(run.status) ==> Active(runs[r].status))
    ensures !BeingReleased(runs[r := run], v)
  {
    var runs' := runs[r := run];
    forall q | 0 <= q < |runs'| && runs'[q].kind == ReleaseHeld(v) ensures !Active(runs'[q].status) {
      assert runs[q].kind == ReleaseHeld(v);
    }
  }

  lemma {:induction false} AppendStays(runs: seq<Run>, run: Run, v: nat)
    requires !BeingReleased(runs, v) && run.kind != ReleaseHeld(v)
    ensures !BeingReleased(runs + [run], v)
  {
    var runs' := runs + [run];
    forall q | 0 <= q < |runs'| && runs'[q].kind == ReleaseHeld(v) ensures !Active(runs'[q].status) {
      assert runs[q].kind == ReleaseHeld(v);
    }
  }

  lemma {:induction false} AwaitedIsOther(ps: seq<Proposal>, p: nat, v: nat)
    requires !AwaitsRelease(ps, v) && p < |ps| && ps[p].status == Awaiting
    ensures ps[p].subject != LargeChangeRelease(v)
  {
  }

  /** Deciding one proposal reopens none. */
  lemma {:induction false} DecidedStays(ps: seq<Proposal>, p: nat, prop: Proposal, v: nat)
    requires !AwaitsRelease(ps, v) && p < |ps| && prop.status != Awaiting
    ensures !AwaitsRelease(ps[p := prop], v)
  {
    var ps' := ps[p := prop];
    forall q | 0 <= q < |ps'| && ps'[q].subject == LargeChangeRelease(v) ensures ps'[q].status != Awaiting {
      if q != p {
        assert ps[q].subject == LargeChangeRelease(v);
      }
    }
  }

  lemma {:induction false} ProposedStays(ps: seq<Proposal>, prop: Proposal, v: nat)
    requires !AwaitsRelease(ps, v) && prop.subject != LargeChangeRelease(v)
    ensures !AwaitsRelease(ps + [prop], v)
  {
    var ps' := ps + [prop];
    forall q | 0 <= q < |ps'| && ps'[q].subject == LargeChangeRelease(v) ensures ps'[q].status != Awaiting {
      assert ps[q].subject == LargeChangeRelease(v);
    }
  }

  lemma {:induction false} DecideKeepsStranded(m: Machine, p: nat, reviewer: Actor, role: Role, approve: bool,
                                               resolution: Option<Resolution>, batch: nat, now: int, v: nat)
    requires Stranded(m, v) && p < |m.store.proposals|
    ensures Stranded(DoDecide(m, p, reviewer, role, approve, resolution, batch, now), v)
  {
    hide AwaitsRelease, BeingReleased, Busy, Outcome;
    var prop := m.store.proposals[p];
    if MayReview(prop, reviewer, role) {
      DecidedStays(m.store.proposals, p, prop.(status := Declined, reviewedBy := Some(reviewer)), v);
      DecidedStays(m.store.proposals, p, prop.(status := Applied, reviewedBy := Some(reviewer)), v);
      AwaitedIsOther(m.store.proposals, p, v);
      if approve && prop.subject.LargeChangeRelease? && !Busy(m.runs, m.source) {
        AppendStays(m.runs, NewRun(m.source, ReleaseHeld(prop.subject.version), Options(false, false, None), reviewer, batch, now, now), v);
      }
    }
  }

  lemma {:induction false} ReclaimKeepsStranded(m: Machine, r: nat, now: int, v: nat)
    requires Stranded(m, v) && r < |m.runs| && Active(m.runs[r].status)
    ensures Stranded(DoReclaim(m, r, now), v)
  {
    hide AwaitsRelease, BeingReleased, ChainLength;
    var marked := m.runs[r := m.runs[r].(status := Abandoned)];
    FinishedStays(m.runs, r, m.runs[r].(status := Abandoned), v);
    assert m.runs[r].kind != ReleaseHeld(v) by {
      ActiveIsOther(m.runs, r, v);
    }
    AppendStays(marked, ResumeOf(m.runs[r], r, now), v);
    ReclaimRows(m.runs, r, m.active, now);
  }

  lemma {:induction false} ActiveIsOther(runs: seq<Run>, r: nat, v: nat)
    requires !BeingReleased(runs, v) && r < |runs| && Active(runs[r].status)
    ensures runs[r].kind != ReleaseHeld(v)
  {
  }

  lemma {:induction false} TableKeepsStranded(m: Machine, e: Event, v: nat)
    requires Stranded(m, v) && !OfWorker(e)
    ensures Stranded(TableStep(m, e), v)
  {
    hide AwaitsRelease, BeingReleased, DoDecide, DoReclaim, Busy, HoldsVersion, AwaitingConfirmation;
    match e {
      case EnqueueIngest(options, who, batch, now, notBefore) =>
        AppendStays(m.runs, NewRun(m.source, ListIngest, options, who, batch, now, notBefore), v);
      case Claim(r, worker, now, lease) => if r < |m.runs| { FinishedIfQueued(m.runs, r, ClaimRun(m.runs[r], worker, now, lease), v); }
      case Heartbeat(r, worker, now, lease) => if r < |m.runs| { FinishedStays(m.runs, r, BeatRun(m.runs[r], worker, now, lease), v); }
      case RequestCancel(r) => if r < |m.runs| { FinishedStays(m.runs, r, CancelRun(m.runs[r]), v); }
      case ReclaimRun(r, now) => if r < |m.runs| && LeaseExpired(m.runs[r], now) { ReclaimKeepsStranded(m, r, now, v); }
      case AssessRemoval(c, evidence, hits, suspects, who) =>
        var rec := Recommend(evidence, hits, suspects);
        if rec.Some? {
          ProposedStays(m.store.proposals, Proposal(RemovalConfirmation(c, rec.value), who, Awaiting, None), v);
        }
      case Decide(p, reviewer, role, approve, resolution, batch, now) =>
        if p < |m.store.proposals| { DecideKeepsStranded(m, p, reviewer, role, approve, resolution, batch, now, v); }
      case _ =>
    }
  }

  lemma {:induction false} FinishedIfQueued(runs: seq<Run>, r: nat, run: Run, v: nat)
    requires !BeingReleased(runs, v) && r < |runs| && run.kind == runs[r].kind
    ensures runs[r].status == Queued ==> !BeingReleased(runs[r := run], v)
  {
    if runs[r].status == Queued {
      FinishedStays(runs, r, run, v);
    }
  }

  /** No run changed its kind and none became active. */
  ghost predicate NoneActivated(runs: seq<Run>, runs': seq<Run>) {
    |runs'| == |runs| && forall i :: 0 <= i < |runs| ==> runs'[i].kind == runs[i].kind && (Active(runs'[i].status) ==> Active(runs[i].status))
  }

  lemma {:induction false} NoneActivatedStays(runs: seq<Run>, runs': seq<Run>, v: nat)
    requires NoneActivated(runs, runs') && !BeingReleased(runs, v)
    ensures !BeingReleased(runs', v)
  {
    forall r | 0 <= r < |runs'| && runs'[r].kind == ReleaseHeld(v) ensures !Active(runs'[r].status) {
      assert runs[r].kind == ReleaseHeld(v);
    }
  }

  lemma {:induction false} WorkerActivatesNone(env: Env, m: Machine, e: Event)
    requires OfWorker(e) && Working(m) && Me(m).status == Running && !Publishes(m, e)
    ensures NoneActivated(m.runs, WorkerStep(env, m, e).runs)
  {
    hide DoPublish, DoPublishHeld, DoValidateRecords, DoStopInternal, DoStopCancelled, CloseVersion, MarkVersion;
    hide FirstByKey, MaxSeq, FileGood, PendingSame, SameAsPublished, Checkpoint;
    StopsActivateNone(env, m);
  }

  lemma {:induction false} StopsActivateNone(env: Env, m: Machine)
    requires Working(m) && Me(m).status == Running
    ensures NoneActivated(m.runs, DoStopInternal(m).runs) && NoneActivated(m.runs, DoStopCancelled(m).runs)
    ensures forall sha, v :: NoneActivated(m.runs, DoValidateRecords(env, m, sha, v).runs)
  {
    hide CloseVersion, NoneActivated;
    ClosingActivatesNone(m);
    forall sha, v ensures NoneActivated(m.runs, DoValidateRecords(env, m, sha, v).runs) {
      VerdictActivatesNone(env, m, sha, v);
    }
  }

  lemma {:induction false} ClosingActivatesNone(m: Machine)
    requires Working(m) && Me(m).status == Running
    ensures NoneActivated(m.runs, DoStopInternal(m).runs) && NoneActivated(m.runs, DoStopCancelled(m).runs)
  {
    hide CloseVersion;
  }

  lemma {:induction false} VerdictActivatesNone(env: Env, m: Machine, sha: Sha, v: nat)
    requires Working(m) && Me(m).status == Running
    ensures NoneActivated(m.runs, DoValidateRecords(env, m, sha, v).runs)
  {
    hide VerdictOn;
  }

  /** Only an unfinished version, or the held one of a dry run, is moved on; only an unfinished one is proposed for release. */
  lemma {:induction false} VerdictKeepsStranded(env: Env, m: Machine, sha: Sha, w: nat, v: nat)
    requires Stranded(m, v) && Working(m) && w < |m.store.versions| && Unfinished(m.store.versions[w].status)
    ensures var st' := DoValidateRecords(env, m, sha, w).store;
            !AwaitsRelease(st'.proposals, v) && v < |st'.versions| && st'.versions[v] == m.store.versions[v]
  {
    hide VerdictOn, BeingReleased, AwaitsRelease;
    ProposedStays(m.store.proposals, Proposal(LargeChangeRelease(w), VALIDATOR, Awaiting, None), v);
  }

  lemma {:induction false} WorkerVersionsKeep(env: Env, m: Machine, e: Event, v: nat)
    requires Stranded(m, v) && OfWorker(e) && Working(m) && !Publishes(m, e) && !e.ValidateRecords?
    ensures var st' := WorkerStep(env, m, e).store;
            && st'.proposals == m.store.proposals && v < |st'.versions|
            && st'.versions[v].status in {m.store.versions[v].status, Rejected}
  {
    hide DoPublish, DoPublishHeld, DoValidateRecords, DoStopInternal, DoStopCancelled, Cancellable, CanRelease;
    hide FirstByKey, Open, MaxSeq, FileGood, PendingSame, SameAsPublished, Checkpoint;
    StopsKeepDecided(m, v);
  }

  lemma {:induction false} StopsKeepDecided(m: Machine, v: nat)
    requires Working(m) && v < |m.store.versions|
    ensures DoStopInternal(m).store.proposals == m.store.proposals == DoStopCancelled(m).store.proposals
    ensures |DoStopInternal(m).store.versions| == |m.store.versions| == |DoStopCancelled(m).store.versions|
    ensures DoStopInternal(m).store.versions[v].status in {m.store.versions[v].status, Rejected}
    ensures DoStopCancelled(m).store.versions[v].status in {m.store.versions[v].status, Rejected}
  {
  }

  lemma {:induction false} WorkerKeepsStranded(env: Env, m: Machine, e: Event, v: nat)
    requires MachineOk(env, m) && Stranded(m, v) && OfWorker(e) && Working(m) && !Publishes(m, e)
    ensures Stranded(WorkerStep(env, m, e), v)
  {
    hide TablesOk, PhaseOk;
    WorkerActivatesNone(env, m, e);
    hide MachineOk, NoneActivated, AwaitsRelease, BeingReleased, DoValidateRecords;
    NoneActivatedStays(m.runs, WorkerStep(env, m, e).runs, v);
    if !e.ValidateRecords? {
      WorkerVersionsKeep(env, m, e, v);
      hide WorkerStep;
    } else if m.worker.value.phase.Parsed? {
      ParsedFacts(env, m);
      VerdictKeepsStranded(env, m, m.worker.value.phase.sha, m.worker.value.phase.version, v);
    }
  }

  lemma {:induction false} StepKeepsStranded(env: Env, m: Machine, e: Event, v: nat)
    requires MachineOk(env, m) && Stranded(m, v)
    ensures Stranded(Step(env, m, e), v)
  {
    hide MachineOk, Stranded, WorkerStep, TableStep;
    if Publishes(m, e) {
      PublishKeepsStranded(env, m, e, v);
    } else if OfWorker(e) {
      if Working(m) {
        WorkerKeepsStranded(env, m, e, v);
      }
    } else {
      TableKeepsStranded(m, e, v);
    }
  }

  /** Once nobody can release a decided version, no future run of the system ever publishes it. */
  lemma {:induction false} StrandedForever(env: Env, m: Machine, es: seq<Event>, v: nat)
    requires MachineOk(env, m) && Stranded(m, v)
    ensures Stranded(Execute(env, m, es), v)
  {
    if es != [] {
      StrandedForever(env, m, es[..|es| - 1], v);
      ExecuteKeepsMachineOk(env, m, es[..|es| - 1]);
      StepKeepsStranded(env, Execute(env, m, es[..|es| - 1]), es[|es| - 1], v);
    }
  }

  // ---------------------------------------------------------------------------------------------
  // How a held version gets stranded
  // ---------------------------------------------------------------------------------------------

  /** A publish leaves no other version awaiting release. */
  lemma {:induction false} OthersExpire(ps: seq<Proposal>, vid: nat, v: nat)
    requires v != vid
    ensures !AwaitsRelease(ExpireProposals(ps, vid), v)
  {
  }

  lemma {:induction false} NoneReleasedAfter(runs: seq<Run>, r: nat, run: Run, v: nat)
    requires r < |runs| && !Active(run.status) && forall i :: 0 <= i < |runs| && Active(runs[i].status) ==> i == r
    ensures !BeingReleased(runs[r := run], v)
  {
  }

  lemma {:induction false} HeldAfterPublish(env: Env, m: Machine, vid: nat, who: Option<Actor>, v: nat)
    requires MachineOk(env, m) && vid < |m.store.versions| && v < |m.store.versions| && m.store.versions[v].status == Held && v != vid
    ensures PublishVersions(m.store.versions, vid, who)[v].status == (if vid < v then Held else Superseded)
  {
    assert VersionsOk(m.store.versions, m.store.current);
  }

  /** The review side of a publishing step. */
  lemma {:induction false} PublishedTables(env: Env, m: Machine, e: Event)
    requires MachineOk(env, m) && Publishes(m, e)
    ensures var m', vid := Step(env, m, e), PublishedVersion(m);
            && vid < |m.store.versions|
            && m'.store.versions == PublishVersions(m.store.versions, vid, Releaser(m))
            && m'.store.proposals == ExpireProposals(m.store.proposals, vid)
            && m'.runs == m.runs[m.worker.value.run := FinishRun(Me(m), Succeeded)]
            && forall i :: 0 <= i < |m.runs| && Active(m.runs[i].status) ==> i == m.worker.value.run
  {
    assert TablesOk(env, m) && WorkerOk(env, m);
    hide MachineOk, Content, ContentOf, PublishRows, NextRemovals, CrosslistOf, Step, WorkerOk, TablesOk, PublishedVersion, CanRelease;
    WorkerIsOnlyActive(env, m);
    PublishStep(env, m, e);
  }

  /**
   A publish strands exactly the versions held above the published one: older held versions are superseded, newer
   ones stay held, but nobody can release them any more.
   */
  lemma {:induction false} PublishStrandsNewer(env: Env, m: Machine, e: Event, v: nat)
    requires MachineOk(env, m) && Publishes(m, e) && v < |m.store.versions| && m.store.versions[v].status == Held
    requires v != PublishedVersion(m)
    ensures var m' := Step(env, m, e);
            && v < |m'.store.versions|
            && (m'.store.versions[v].status == Held <==> PublishedVersion(m) < v)
            && Stranded(m', v)
  {
    hide MachineOk, Step, PublishedVersion, ExpireProposals, AwaitsRelease, BeingReleased, Me;
    PublishedTables(env, m, e);
    HeldAfterPublish(env, m, PublishedVersion(m), Releaser(m), v);
    OthersExpire(m.store.proposals, PublishedVersion(m), v);
    NoneReleasedAfter(m.runs, m.worker.value.run, FinishRun(Me(m), Succeeded), v);
  }

  /** An ingest publishes the newest version, so it strands nothing; only a release can. */
  lemma {:induction false} IngestStrandsNothing(env: Env, m: Machine, v: nat)
    requires MachineOk(env, m) && Publishes(m, DiffPublish) && v < |m.store.versions|
    ensures v < |Step(env, m, DiffPublish).store.versions| && Step(env, m, DiffPublish).store.versions[v].status != Held
  {
    hide TablesOk, VerdictOn, Content, ContentOf, Step, PublishEffect;
    DecidedFacts(env, m);
    if m.store.versions[v].status == Held {
      PublishStrandsNewer(env, m, DiffPublish, v);
    } else {
      PublishStep(env, m, DiffPublish);
      NotHeldAfter(m.store, PublishedVersion(m), v, ContentOf(env, m.store.versions[PublishedVersion(m)]), m.worker.value.run, Releaser(m));
    }
  }

  lemma {:induction false} NotHeldAfter(st: Store, vid: nat, v: nat, recs: seq<Rec>, run: nat, who: Option<Actor>)
    requires vid < |st.versions| && v < |st.versions| && st.versions[v].status != Held
    ensures v < |PublishEffect(st, vid, recs, run, who).versions| && PublishEffect(st, vid, recs, run, who).versions[v].status != Held
  {
  }

  /** Withdrawing a queued release strands its version too: the approval is spent. */
  lemma {:induction false} CancelledReleaseStrands(env: Env, m: Machine, r: nat, v: nat)
    requires MachineOk(env, m) && r < |m.runs| && m.runs[r].status == Queued && m.runs[r].kind == ReleaseHeld(v)
    ensures v < |m.store.versions| && Step(env, m, RequestCancel(r)).store.versions[v].status == Held
    ensures Stranded(Step(env, m, RequestCancel(r)), v)
  {
    ReleaseStillHeld(env, m, r, v);
    SpentApproval(env, m, v);
    assert OneActive(m.runs) && OneSource(m.runs, m.source);
    hide MachineOk;
    NoneReleasedAfter(m.runs, r, CancelRun(m.runs[r]), v);
  }

  lemma {:induction false} SpentApproval(env: Env, m: Machine, v: nat)
    requires MachineOk(env, m) && ReleaseApproved(m.store.proposals, v)
    ensures !AwaitsRelease(m.store.proposals, v)
  {
    assert ProposalsOk(m.store.proposals, m.store.versions, |m.store.removals|, m.runs);
  }

  /** Staging is purged exactly when nobody needs it any more: its run is over and holds no version. */
  lemma {:induction false} PurgedIff(env: Env, m: Machine, r: nat)
    requires MachineOk(env, m) && r < |m.runs|
    ensures r !in Step(env, m, PurgeStaging(r)).staging <==>
              r !in m.staging
              || (m.runs[r].status !in {Queued, Running}
                  && forall v :: 0 <= v < |m.store.versions| && m.store.versions[v].run == r ==> m.store.versions[v].status != Held)
  {
    hide MachineOk;
  }

  /** Nor does fetching the stranded file again help: an ordinary fetch stops at a held or quarantined version. */
  lemma {:induction false} RefetchStopsAtHeld(m: Machine, sha: Sha, header: bool, v: nat)
    requires Working(m) && v < |m.store.versions| && Pending(m.store.versions[v], sha)
    requires !Me(m).options.forceRefetch && !Me(m).options.dryRun && !SameAsPublished(m.store, sha)
    ensures DoArchive(m, sha, header).worker.None? && DoArchive(m, sha, header).store == m.store
    ensures DoArchive(m, sha, header).runs[m.worker.value.run].status in {RunHeld, RunQuarantined}
    ensures v + 1 == |m.store.versions| ==>
              DoArchive(m, sha, header).runs[m.worker.value.run].status
              == (if m.store.versions[v].status == Held then RunHeld else RunQuarantined)
  {
    PendingFound(m.store.versions, sha, v);
    hide PendingSame;
  }

  predicate Pending(v: Version, sha: Sha) { v.sha == sha && v.status in {Held, Quarantined} }

  lemma {:induction false} PendingFound(vs: seq<Version>, sha: Sha, v: nat)
    requires v < |vs| && Pending(vs[v], sha)
    ensures PendingSame(vs, sha).Some? && v <= PendingSame(vs, sha).value < |vs|
  {
    if v < |vs| - 1 && !Pending(vs[|vs| - 1], sha) {
      PendingFound(vs[..|vs| - 1], sha, v);
    }
  }

  lemma {:induction false} PendingIsPending(vs: seq<Version>, sha: Sha)
    ensures PendingSame(vs, sha).Some? ==> PendingSame(vs, sha).value < |vs| && Pending(vs[PendingSame(vs, sha).value], sha)
  {
    if vs != [] {
      PendingIsPending(vs[..|vs| - 1], sha);
    }
  }

  /**
   A fetched file is taken in exactly when it was forced, is a dry run, or is news: neither the published file nor
   one still held or quarantined. Otherwise the run ends at once, as unchanged or like the newest pending version.
   */
  lemma {:induction false} FetchGoesOnIff(m: Machine, sha: Sha, header: bool)
    requires Working(m)
    ensures DoArchive(m, sha, header).worker.Some? <==>
              || Me(m).options.forceRefetch || Me(m).options.dryRun
              || forall i :: 0 <= i < |m.store.versions| && m.store.versions[i].sha == sha ==>
                   m.store.versions[i].status !in {Published, Held, Quarantined}
    ensures DoArchive(m, sha, header).worker.None? && SameAsPublished(m.store, sha) ==>
              DoArchive(m, sha, header).runs[m.worker.value.run].status == NoChange
    ensures DoArchive(m, sha, header).worker.None? && !SameAsPublished(m.store, sha) ==>
              exists i :: 0 <= i < |m.store.versions| && Pending(m.store.versions[i], sha)
                          && (forall j :: i < j < |m.store.versions| ==> !Pending(m.store.versions[j], sha))
                          && DoArchive(m, sha, header).runs[m.worker.value.run].status
                             == (if m.store.versions[i].status == Held then RunHeld else RunQuarantined)
  {
    var vs := m.store.versions;
    PendingIsPending(vs, sha);
    forall i | 0 <= i < |vs| && Pending(vs[i], sha) ensures PendingSame(vs, sha).Some? && i <= PendingSame(vs, sha).value {
      PendingFound(vs, sha, i);
    }
    hide PendingSame;
  }
}
