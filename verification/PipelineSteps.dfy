/** Every event of the pipeline machine keeps its invariant, so every reachable state satisfies it. */
module PipelineSteps {
  import opened Base
  import opened Canonical
  import opened Scd2
  import opened ListStore
  import opened ListStoreProofs
  import opened Staging
  import opened RunQueue
  import opened Pipeline
  import opened PipelineInvariant
  import V = Validation

  // ---------------------------------------------------------------------------------------------
  // Ending a run
  // ---------------------------------------------------------------------------------------------

  predicate Terminal(s: RunStatus) { !Active(s) && s != Abandoned }

  lemma {:induction false} RunningIsGentle(runs: seq<Run>, r: nat, run: Run)
    requires QueueOk(runs) && r < |runs| && runs[r].status == Running && Terminal(run.status)
    requires run == runs[r].(status := run.status, leaseOwner := None)
    ensures Gentle(runs[r], run)
  {
    assert RunOk(runs, r);
  }

  lemma {:induction false} FinishOk(env: Env, m: Machine, status: RunStatus)
    requires TablesOk(env, m) && FreshQueued(m.runs) && Working(m) && Me(m).status == Running && Terminal(status)
    requires NoUnfinishedOf(m.store.versions, m.worker.value.run)
    ensures MachineOk(env, Finish(m, status))
  {
    var r, run := m.worker.value.run, FinishRun(Me(m), status);
    RunningIsGentle(m.runs, r, run);
    FinishedFresh(m.runs, r, run);
    hide TablesOk, FreshQueued, Gentle, NoUnfinishedOf;
    RunUpdateOk(env, m, r, run, m.archive);
    TablesIgnoreWorker(env, m.(runs := m.runs[r := run], archive := m.archive), Finish(m, status));
  }

  lemma {:induction false} FinishedFresh(runs: seq<Run>, r: nat, run: Run)
    requires FreshQueued(runs) && r < |runs| && !Active(run.status)
    ensures FreshQueued(runs[r := run])
  {
  }

  /** A run whose transaction left the given data ends. */
  lemma {:induction false} FinishFrom(env: Env, m: Machine, store: Store, staging: map<nat, seq<Rec>>, status: RunStatus)
    requires MachineOk(env, m) && Working(m) && Terminal(status)
    requires TablesOk(env, m.(store := store, staging := staging)) && NoUnfinishedOf(store.versions, m.worker.value.run)
    ensures MachineOk(env, Finish(m.(store := store, staging := staging), status))
  {
    WorkerRunning(env, m);
    assert FreshQueued(m.runs);
    hide MachineOk, TablesOk, NoUnfinishedOf, FreshQueued, Finish;
    FinishOk(env, m.(store := store, staging := staging), status);
  }

  /** The unfinished version of a stopping run, closed. */
  function Closed(m: Machine, status: VersionStatus): Machine
    requires Working(m)
  {
    var v := WorkingVersion(m.worker.value.phase);
    if v.Some? then WithStore(m, CloseVersion(m.store, v.value, status)) else m
  }

  /** The version in the worker's hands is the only version of its run. */
  lemma {:induction false} WorkingVersionIsOnly(env: Env, m: Machine)
    requires MachineOk(env, m) && Working(m)
    ensures var v := WorkingVersion(m.worker.value.phase);
            && (v.None? ==> NoVersionOf(m.store.versions, m.worker.value.run))
            && (v.Some? ==> v.value < |m.store.versions| && m.store.versions[v.value].run == m.worker.value.run
                            && forall i :: 0 <= i < |m.store.versions| && i != v.value ==> m.store.versions[i].run != m.worker.value.run)
  {
    assert VersionsLinked(m.store.versions, m.runs) && PhaseOk(env, m);
    hide TablesOk, VerdictOn, FirstByKey;
  }

  /** However a run stops, no CANDIDATE or VALIDATED version of it remains. */
  lemma {:induction false} ClosedOk(env: Env, m: Machine, status: VersionStatus)
    requires MachineOk(env, m) && Working(m) && status in {Rejected, Quarantined}
    ensures TablesOk(env, Closed(m, status)) && NoUnfinishedOf(Closed(m, status).store.versions, m.worker.value.run)
    ensures Closed(m, status) == m.(store := Closed(m, status).store)
  {
    assert TablesOk(env, m);
    hide MachineOk, TablesOk, NoUnfinishedOf, CloseVersion;
    var v := WorkingVersion(m.worker.value.phase);
    CloseOnly(m.store, v, status, m.worker.value.run) by {
      WorkingVersionIsOnly(env, m);
    }
    if v.Some? {
      CloseVersionOk(env, m, v.value, status);
    }
  }

  lemma {:induction false} CloseOnly(st: Store, v: Option<nat>, status: VersionStatus, r: nat)
    requires v.None? ==> NoVersionOf(st.versions, r)
    requires v.Some? ==> forall i :: 0 <= i < |st.versions| && i != v.value ==> st.versions[i].run != r
    requires status in {Rejected, Quarantined}
    ensures NoUnfinishedOf(st.versions, r) || v.Some?
    ensures v.Some? ==> NoUnfinishedOf(CloseVersion(st, v.value, status).versions, r)
  {
  }

  lemma {:induction false} StopOk(env: Env, m: Machine, version: VersionStatus, status: RunStatus)
    requires MachineOk(env, m) && Working(m) && version in {Rejected, Quarantined} && Terminal(status)
    ensures MachineOk(env, Finish(Closed(m, version), status))
  {
    ClosedOk(env, m, version);
    hide TablesOk, PhaseOk;
    FinishOk(env, Closed(m, version), status);
  }

  // ---------------------------------------------------------------------------------------------
  // Events that leave the worker where it is
  // ---------------------------------------------------------------------------------------------

  /** What the worker relies on. */
  ghost predicate SameForWorker(m: Machine, m': Machine) {
    && m'.worker == m.worker && m'.store.versions == m.store.versions && m'.store.rows == m.store.rows
    && (Working(m) ==>
          && Working(m') && StagedOf(m', m.worker.value.run) == StagedOf(m, m.worker.value.run)
          && Me(m').status == Me(m).status && Me(m').kind == Me(m).kind && Me(m').archived == Me(m).archived
          && Me(m').options == Me(m).options)
  }

  lemma {:induction false} WorkerFrame(env: Env, m: Machine, m': Machine)
    requires WorkerOk(env, m) && SameForWorker(m, m')
    ensures WorkerOk(env, m')
  {
    hide VerdictOn, FirstByKey, Open;
  }

  /** While a worker is at work its source is busy and nothing is queued. */
  lemma {:induction false} WorkerIsOnlyActive(env: Env, m: Machine)
    requires TablesOk(env, m) && WorkerOk(env, m) && m.worker.Some?
    ensures Busy(m.runs, m.source) && forall i :: 0 <= i < |m.runs| && Active(m.runs[i].status) ==> i == m.worker.value.run
  {
    assert ActiveFor(m.runs[m.worker.value.run], m.source);
    assert OneActive(m.runs) && OneSource(m.runs, m.source);
  }

  lemma {:induction false} EnqueueOk(env: Env, m: Machine, run: Run)
    requires MachineOk(env, m) && run.source == m.source && run.kind == ListIngest && run.archived == None
    requires run.status == Queued && run.claims == 0 && run.resumedFrom == None && run.attempt == 1
    ensures MachineOk(env, m.(runs := Enqueue(m.runs, run)))
  {
    assert OneSource(m.runs, m.source);
    hide TablesOk;
    if !Busy(m.runs, m.source) {
      forall i | 0 <= i < |m.runs| ensures !Active(m.runs[i].status) {
        assert !ActiveFor(m.runs[i], m.source);
      }
      EnqueueTables(env, m, run);
      if m.worker.Some? {
        WorkerIsOnlyActive(env, m);
      }
      assert m.runs + [run] == Enqueue(m.runs, run);
    }
  }

  lemma {:induction false} EnqueueTables(env: Env, m: Machine, run: Run)
    requires TablesOk(env, m) && run.source == m.source && run.kind == ListIngest && run.archived == None
    requires run.status == Queued && run.claims == 0 && run.resumedFrom == None && run.attempt == 1
    requires !Busy(m.runs, m.source)
    ensures TablesOk(env, m.(runs := m.runs + [run]))
  {
    EnqueueKeepsQueueOk(m.runs, run);
    hide StoreOk, QueueOk, VersionsLinked, ProposalsOk, ReleasesOk, HeldOk, LogLinked, ArchiveOk;
    RunAppendOk(env, m, run);
  }

  lemma {:induction false} QueuedHasNoVersion(env: Env, m: Machine, r: nat)
    requires TablesOk(env, m) && r < |m.runs| && m.runs[r].status == Queued
    ensures NoVersionOf(m.store.versions, r)
  {
    assert RunOk(m.runs, r);
    hide StoreOk, ProposalsOk, ReleasesOk, HeldOk, LogLinked, ArchiveOk, QueueOk;
  }

  lemma {:induction false} NoVersionNoUnfinished(vs: seq<Version>, r: nat)
    requires NoVersionOf(vs, r)
    ensures NoUnfinishedOf(vs, r)
  {
  }

  lemma {:induction false} ClaimOk(env: Env, m: Machine, r: nat, worker: Actor, now: int, lease: nat)
    requires MachineOk(env, m) && r < |m.runs| && Claimable(m.runs[r], now)
    ensures MachineOk(env, TableStep(m, Claim(r, worker, now, lease)))
  {
    var run := ClaimRun(m.runs[r], worker, now, lease);
    var m' := TableStep(m, Claim(r, worker, now, lease));
    assert Gentle(m.runs[r], run) by {
      assert RunOk(m.runs, r);
    }
    QueuedHasNoVersion(env, m, r);
    ClaimedFacts(env, m, r, worker, now, lease);
    assert TablesOk(env, m);
    hide MachineOk, TablesOk, Gentle, PhaseOk, FreshQueued, TableStep;
    RunUpdateOk(env, m, r, run, m.archive);
    TablesIgnoreWorker(env, m.(runs := m.runs[r := run], archive := m.archive), m');
    ClaimedWorkerOk(env, m, m', r);
  }

  /** The claimed run's worker starts from nothing. */
  lemma {:induction false} ClaimedFacts(env: Env, m: Machine, r: nat, worker: Actor, now: int, lease: nat)
    requires MachineOk(env, m) && r < |m.runs| && Claimable(m.runs[r], now)
    ensures var m', run := TableStep(m, Claim(r, worker, now, lease)), ClaimRun(m.runs[r], worker, now, lease);
            && m' == m.(runs := m.runs[r := run], worker := m'.worker) && FreshQueued(m'.runs)
            && m'.worker == Some(Worker(r, m.cfg, if run.kind.ListIngest? then Fetching else Releasing))
    ensures m.runs[r].archived == None
  {
    hide TablesOk, WorkerOk;
  }

  lemma {:induction false} ClaimedWorkerOk(env: Env, m: Machine, m': Machine, r: nat)
    requires r < |m'.runs| && m'.runs[r].status == Running && m'.runs[r].archived == None && NoVersionOf(m'.store.versions, r)
    requires TablesOk(env, m') && FreshQueued(m'.runs)
    requires m'.worker.Some? && m'.worker.value.run == r
    requires m'.worker.value.phase == if m'.runs[r].kind.ListIngest? then Fetching else Releasing
    ensures MachineOk(env, m')
  {
    hide TablesOk, FreshQueued;
  }

  /** The tables do not depend on the worker, the configuration or the source's status. */
  lemma {:induction false} TablesIgnoreWorker(env: Env, m: Machine, m': Machine)
    requires TablesOk(env, m) && m' == m.(worker := m'.worker, cfg := m'.cfg, active := m'.active)
    ensures TablesOk(env, m')
  {
    hide StoreOk, QueueOk, VersionsLinked, ProposalsOk, ReleasesOk, HeldOk, LogLinked, ArchiveOk;
  }

  /** A change to one run row that leaves its status alone, or cancels it before it was claimed. */
  lemma {:induction false} RowUpdateOk(env: Env, m: Machine, r: nat, run: Run)
    requires MachineOk(env, m) && r < |m.runs| && Gentle(m.runs[r], run) && run.archived == m.runs[r].archived
    requires run.status == m.runs[r].status || (m.runs[r].status == Queued && run.status == Cancelled)
    ensures MachineOk(env, m.(runs := m.runs[r := run]))
  {
    var m' := m.(runs := m.runs[r := run]);
    RowFacts(env, m, r, run);
    assert TablesOk(env, m) && WorkerOk(env, m);
    hide MachineOk, TablesOk, WorkerOk, Gentle, SameForWorker, NoUnfinishedOf, FreshQueued;
    RunUpdateOk(env, m, r, run, m.archive);
    assert m' == m.(runs := m.runs[r := run], archive := m.archive);
    WorkerFrame(env, m, m');
    MachineParts(env, m');
  }

  lemma {:induction false} MachineParts(env: Env, m: Machine)
    requires TablesOk(env, m) && WorkerOk(env, m) && FreshQueued(m.runs)
    ensures MachineOk(env, m)
  {
    hide TablesOk, WorkerOk, FreshQueued;
  }

  lemma {:induction false} RowFacts(env: Env, m: Machine, r: nat, run: Run)
    requires MachineOk(env, m) && r < |m.runs| && Gentle(m.runs[r], run) && run.archived == m.runs[r].archived
    requires run.status == m.runs[r].status || (m.runs[r].status == Queued && run.status == Cancelled)
    ensures SameForWorker(m, m.(runs := m.runs[r := run])) && FreshQueued(m.runs[r := run])
    ensures NoUnfinishedOf(m.store.versions, r) || run.status == Running
  {
    assert VersionsLinked(m.store.versions, m.runs);
    hide TablesOk, PhaseOk;
  }

  lemma {:induction false} HeartbeatOk(env: Env, m: Machine, r: nat, worker: Actor, now: int, lease: nat)
    requires MachineOk(env, m) && r < |m.runs|
    ensures MachineOk(env, m.(runs := m.runs[r := BeatRun(m.runs[r], worker, now, lease)]))
  {
    assert Gentle(m.runs[r], BeatRun(m.runs[r], worker, now, lease)) by {
      assert RunOk(m.runs, r);
    }
    hide MachineOk, Gentle;
    RowUpdateOk(env, m, r, BeatRun(m.runs[r], worker, now, lease));
  }

  lemma {:induction false} CancelOk(env: Env, m: Machine, r: nat)
    requires MachineOk(env, m) && r < |m.runs|
    ensures MachineOk(env, m.(runs := m.runs[r := CancelRun(m.runs[r])]))
  {
    assert Gentle(m.runs[r], CancelRun(m.runs[r])) by {
      assert RunOk(m.runs, r);
    }
    hide MachineOk, Gentle;
    RowUpdateOk(env, m, r, CancelRun(m.runs[r]));
  }

  lemma {:induction false} PurgeOk(env: Env, m: Machine, r: nat)
    requires MachineOk(env, m) && r < |m.runs| && !Active(m.runs[r].status) && !HoldsVersion(m.store.versions, r)
    ensures MachineOk(env, m.(staging := m.staging - {r}))
  {
    var m' := m.(staging := m.staging - {r});
    assert SameForWorker(m, m');
    hide TablesOk, PhaseOk, SameForWorker;
    StagingOk(env, m, r, m.staging - {r});
    WorkerFrame(env, m, m');
  }

  /** A store change that leaves rows, versions and log alone: assessing and resolving. */
  lemma {:induction false} ReviewStoreOk(env: Env, m: Machine, st: Store)
    requires MachineOk(env, m) && StoreOk(st) && ProposalsOk(st.proposals, st.versions, |st.removals|, m.runs)
    requires st.rows == m.store.rows && st.versions == m.store.versions && st.log == m.store.log
    requires ReleasesOk(m.runs, st.versions, st.proposals)
    ensures MachineOk(env, WithStore(m, st))
  {
    assert SameForWorker(m, WithStore(m, st));
    WorkerFrame(env, m, WithStore(m, st));
    hide StoreOk, QueueOk, VersionsLinked, ProposalsOk, ReleasesOk, HeldOk, LogLinked, ArchiveOk, PhaseOk, SameForWorker;
  }

  lemma {:induction false} AssessProposals(st: Store, runs: seq<Run>, c: nat, evidence: bool, hits: bool, suspects: bool, who: Actor)
    requires ProposalsOk(st.proposals, st.versions, |st.removals|, runs) && ReleasesOk(runs, st.versions, st.proposals)
    ensures var st' := Assess(st, c, evidence, hits, suspects, who);
            && ProposalsOk(st'.proposals, st'.versions, |st'.removals|, runs) && ReleasesOk(runs, st'.versions, st'.proposals)
            && st' == st.(proposals := st'.proposals, removals := st'.removals)
  {
    var st' := Assess(st, c, evidence, hits, suspects, who);
    hide ProposalsOk, ReleasesOk, AwaitingConfirmation;
    ReleasesMore(runs, st.versions, st.proposals, st'.proposals);
    if st'.proposals != st.proposals {
      ProposalsMore(st.proposals, st.versions, |st.removals|, runs, st'.proposals[|st.proposals|]);
    }
  }

  lemma {:induction false} AssessOk(env: Env, m: Machine, c: nat, evidence: bool, hits: bool, suspects: bool, who: Actor)
    requires MachineOk(env, m)
    ensures MachineOk(env, WithStore(m, Assess(m.store, c, evidence, hits, suspects, who)))
  {
    hide StoreOk, QueueOk, VersionsLinked, HeldOk, LogLinked, ArchiveOk, PhaseOk, ProposalsOk, ReleasesOk, Assess;
    AssessKeepsStoreOk(m.store, c, evidence, hits, suspects, who);
    AssessProposals(m.store, m.runs, c, evidence, hits, suspects, who);
    ReviewStoreOk(env, m, Assess(m.store, c, evidence, hits, suspects, who));
  }

  lemma {:induction false} ReleasesMore(runs: seq<Run>, vs: seq<Version>, ps: seq<Proposal>, ps': seq<Proposal>)
    requires ReleasesOk(runs, vs, ps) && |ps| <= |ps'|
    requires forall i :: 0 <= i < |ps| ==> ps'[i].subject == ps[i].subject && (ps[i].status == Applied ==> ps'[i].status == Applied)
    ensures ReleasesOk(runs, vs, ps')
  {
    forall r | 0 <= r < |runs| && runs[r].kind.ReleaseHeld? ensures ReleaseApproved(ps', runs[r].kind.version) {
      var p :| 0 <= p < |ps| && ps[p].subject == LargeChangeRelease(runs[r].kind.version) && ps[p].status == Applied;
      assert ps'[p].subject == ps[p].subject;
    }
  }

  lemma {:induction false} ProposalsMore(ps: seq<Proposal>, vs: seq<Version>, removals: nat, runs: seq<Run>, p: Proposal)
    requires ProposalsOk(ps, vs, removals, runs) && ProposalOk(p, vs, removals, runs)
    requires forall i :: 0 <= i < |ps| && p.subject.LargeChangeRelease? ==> ps[i].subject != p.subject
    ensures ProposalsOk(ps + [p], vs, removals, runs)
  {
  }

  // ---------------------------------------------------------------------------------------------
  // Decisions and reclaim
  // ---------------------------------------------------------------------------------------------

  lemma {:induction false} CloseProposalTables(ps: seq<Proposal>, vs: seq<Version>, removals: nat, runs: seq<Run>,
                                               p: nat, status: ProposalStatus, reviewer: Actor)
    requires ProposalsOk(ps, vs, removals, runs) && ReleasesOk(runs, vs, ps) && p < |ps|
    requires ps[p].status == Awaiting && ps[p].proposedBy != reviewer && status in {Applied, Declined}
    ensures var ps' := ps[p := ps[p].(status := status, reviewedBy := Some(reviewer))];
            ProposalsOk(ps', vs, removals, runs) && ReleasesOk(runs, vs, ps')
  {
    var ps' := ps[p := ps[p].(status := status, reviewedBy := Some(reviewer))];
    forall i | 0 <= i < |ps'| ensures ProposalOk(ps'[i], vs, removals, runs) {
      assert ProposalOk(ps[i], vs, removals, runs);
    }
    ReleasesMore(runs, vs, ps, ps');
  }

  lemma {:induction false} DecideCloses(env: Env, m: Machine, p: nat, status: ProposalStatus, reviewer: Actor, st: Store)
    requires MachineOk(env, m) && p < |m.store.proposals| && status in {Applied, Declined}
    requires m.store.proposals[p].status == Awaiting && m.store.proposals[p].proposedBy != reviewer
    requires StoreOk(st) && st == m.store.(removals := st.removals) && |st.removals| == |m.store.removals|
    ensures MachineOk(env, WithStore(m, CloseProposal(st, p, status, reviewer)))
  {
    var st' := CloseProposal(st, p, status, reviewer);
    assert StoreOk(st');
    assert ProposalsOk(st.proposals, st.versions, |st.removals|, m.runs) && ReleasesOk(m.runs, st.versions, st.proposals);
    hide StoreOk, QueueOk, VersionsLinked, HeldOk, LogLinked, ArchiveOk, PhaseOk, TablesOk, MachineOk, ProposalsOk, ReleasesOk;
    CloseProposalTables(st.proposals, st.versions, |st.removals|, m.runs, p, status, reviewer);
    ReviewStoreOk(env, m, st');
  }

  /** An approved release: the queued run finds its version held and approved. */
  lemma {:induction false} AwaitedIsHeld(env: Env, m: Machine, p: nat, v: nat)
    requires MachineOk(env, m) && p < |m.store.proposals| && m.store.proposals[p].subject == LargeChangeRelease(v)
    requires m.store.proposals[p].status == Awaiting
    ensures v < |m.store.versions| && m.store.versions[v].status == Held
  {
    assert ProposalOk(m.store.proposals[p], m.store.versions, |m.store.removals|, m.runs);
    hide ProposalsOk;
  }

  lemma {:induction false} ApproveReleaseOk(env: Env, m: Machine, p: nat, reviewer: Actor, v: nat, run: Run)
    requires MachineOk(env, m) && p < |m.store.proposals| && m.store.proposals[p].subject == LargeChangeRelease(v)
    requires m.store.proposals[p].status == Awaiting && m.store.proposals[p].proposedBy != reviewer
    requires !Busy(m.runs, m.source) && run.source == m.source && run.kind == ReleaseHeld(v) && run.archived == None
    requires run.status == Queued && run.claims == 0 && run.resumedFrom == None && run.attempt == 1
    ensures MachineOk(env, m.(runs := m.runs + [run], store := CloseProposal(m.store, p, Applied, reviewer)))
  {
    AwaitedIsHeld(env, m, p, v);
    assert StoreOk(m.store) && QueueOk(m.runs) && m.store == m.store.(removals := m.store.removals);
    hide StoreOk, QueueOk, VersionsLinked, ProposalsOk, ReleasesOk, HeldOk, LogLinked, ArchiveOk, PhaseOk, TablesOk;
    DecideCloses(env, m, p, Applied, reviewer, m.store);
    var m1 := WithStore(m, CloseProposal(m.store, p, Applied, reviewer));
    assert m1.store.proposals[p].subject == LargeChangeRelease(v);
    EnqueueKeepsQueueOk(m.runs, run);
    RunAppendOk(env, m1, run);
    if m.worker.Some? {
      WorkerIsOnlyActive(env, m);
    }
  }

  lemma {:induction false} DecideOk(env: Env, m: Machine, p: nat, reviewer: Actor, role: Role, approve: bool,
                                    resolution: Option<Resolution>, batch: nat, now: int)
    requires MachineOk(env, m) && p < |m.store.proposals|
    ensures MachineOk(env, DoDecide(m, p, reviewer, role, approve, resolution, batch, now))
  {
    var prop := m.store.proposals[p];
    assert StoreOk(m.store);
    hide StoreOk, QueueOk, TablesOk, MachineOk, Busy;
    if MayReview(prop, reviewer, role) {
      if !approve {
        DecideCloses(env, m, p, Declined, reviewer, m.store);
      } else if prop.subject.LargeChangeRelease? {
        if !Busy(m.runs, m.source) {
          var run := NewRun(m.source, ReleaseHeld(prop.subject.version), Options(false, false, None), reviewer, batch, now, now);
          ApproveReleaseOk(env, m, p, reviewer, prop.subject.version, run);
        }
      } else {
        var res := if resolution.Some? then resolution.value else prop.subject.recommendation;
        ResolveKeepsStoreOk(m.store, prop.subject.candidate, res, reviewer);
        DecideCloses(env, m, p, Applied, reviewer, Resolve(m.store, prop.subject.candidate, res, reviewer));
      }
    }
  }

  /** A run has at most one version, so rejecting "its versions" moves at most one row. */
  lemma {:induction false} RejectIsOneUpdate(vs: seq<Version>, runs: seq<Run>, r: nat) returns (v: nat)
    requires VersionsLinked(vs, runs)
    ensures NoUnfinishedOf(RejectVersionsOf(vs, r), r)
    ensures RejectVersionsOf(vs, r) == vs
            || (v < |vs| && vs[v].run == r && Unfinished(vs[v].status)
                && RejectVersionsOf(vs, r) == vs[v := vs[v].(status := Rejected)])
  {
    if v' :| 0 <= v' < |vs| && vs[v'].run == r && Unfinished(vs[v'].status) {
      v := v';
    } else {
      v := 0;
    }
  }

  lemma {:induction false} RejectOk(env: Env, m: Machine, r: nat)
    requires TablesOk(env, m)
    ensures TablesOk(env, m.(store := m.store.(versions := RejectVersionsOf(m.store.versions, r))))
    ensures NoUnfinishedOf(RejectVersionsOf(m.store.versions, r), r)
  {
    assert VersionsLinked(m.store.versions, m.runs);
    hide TablesOk, VersionsLinked, RejectVersionsOf;
    var v := RejectIsOneUpdate(m.store.versions, m.runs, r);
    if RejectVersionsOf(m.store.versions, r) != m.store.versions {
      VersionUpdateOk(env, m, v, m.store.versions[v].(status := Rejected));
    }
  }

  lemma {:induction false} ReleaseStillHeld(env: Env, m: Machine, r: nat, v: nat)
    requires TablesOk(env, m) && r < |m.runs| && m.runs[r].kind == ReleaseHeld(v) && Active(m.runs[r].status)
    ensures v < |m.store.versions| && m.store.versions[v].status == Held && ReleaseApproved(m.store.proposals, v)
    ensures RejectVersionsOf(m.store.versions, r) == m.store.versions
  {
    assert ReleasesOk(m.runs, m.store.versions, m.store.proposals) && VersionsLinked(m.store.versions, m.runs);
  }

  /** The abandoned run closed: its unfinished version rejected, its staging gone, nothing resumed yet. */
  lemma {:induction false} AbandonOk(env: Env, m: Machine, r: nat)
    requires TablesOk(env, m) && r < |m.runs| && m.runs[r].status == Running
    ensures TablesOk(env, m.(runs := m.runs[r := m.runs[r].(status := Abandoned)],
                             store := m.store.(versions := RejectVersionsOf(m.store.versions, r)), staging := m.staging - {r}))
  {
    hide *;
    AbandonIsGentle(env, m, r);
    RejectOk(env, m, r);
    var m1 := m.(store := m.store.(versions := RejectVersionsOf(m.store.versions, r)));
    RunningHoldsNothing(env, m1, r);
    OthersStayStaged(m.staging, r);
    StagingOk(env, m1, r, m.staging - {r});
    var m2 := m1.(staging := m.staging - {r});
    RunUpdateOk(env, m2, r, m.runs[r].(status := Abandoned), m.archive);
    assert m2.(runs := m.runs[r := m.runs[r].(status := Abandoned)], archive := m.archive)
        == m.(runs := m.runs[r := m.runs[r].(status := Abandoned)], store := m1.store, staging := m.staging - {r});
  }

  lemma {:induction false} OthersStayStaged(staging: map<nat, seq<Rec>>, r: nat)
    ensures forall k :: k != r ==> Staged(staging - {r}, k) == Staged(staging, k)
  {
  }

  lemma {:induction false} AbandonIsGentle(env: Env, m: Machine, r: nat)
    requires TablesOk(env, m) && r < |m.runs| && m.runs[r].status == Running
    ensures Gentle(m.runs[r], m.runs[r].(status := Abandoned))
  {
    assert RunOk(m.runs, r);
    hide StoreOk, Linear, OneActive, VersionsLinked, ProposalsOk, ReleasesOk, HeldOk, LogLinked, ArchiveOk, OneSource;
  }

  /** A run's resumption: the same release still finds its version held and approved. */
  lemma {:induction false} ResumeOk(env: Env, m: Machine, m1: Machine, r: nat, now: int)
    requires TablesOk(env, m) && TablesOk(env, m1) && r < |m.runs| && m.runs[r].status == Running
    requires m1.runs == m.runs[r := m.runs[r].(status := Abandoned)] && m1.source == m.source
    requires m1.store == m.store.(versions := RejectVersionsOf(m.store.versions, r))
    requires QueueOk(m1.runs + [ResumeOf(m.runs[r], r, now)])
    ensures TablesOk(env, m1.(runs := m1.runs + [ResumeOf(m.runs[r], r, now)]))
  {
    assert m.runs[r].source == m.source by {
      assert OneSource(m.runs, m.source);
    }
    hide TablesOk, QueueOk, RejectVersionsOf;
    if m.runs[r].kind.ReleaseHeld? {
      ReleaseStillHeld(env, m, r, m.runs[r].kind.version);
    }
    RunAppendOk(env, m1, ResumeOf(m.runs[r], r, now));
  }

  lemma {:induction false} ReclaimOk(env: Env, m: Machine, r: nat, now: int)
    requires MachineOk(env, m) && m.worker.None? && r < |m.runs| && m.runs[r].status == Running
    ensures MachineOk(env, DoReclaim(m, r, now))
  {
    var m1 := m.(runs := m.runs[r := m.runs[r].(status := Abandoned)],
                 store := m.store.(versions := RejectVersionsOf(m.store.versions, r)), staging := m.staging - {r});
    var m' := DoReclaim(m, r, now);
    assert QueueOk(m.runs) && TablesOk(env, m);
    hide TablesOk, QueueOk, RejectVersionsOf, PhaseOk, Reclaim;
    AbandonOk(env, m, r);
    ReclaimResumesIff(m.runs, r, m.active, now);
    ReclaimKeepsQueueOk(m.runs, r, m.active, now);
    ReclaimRows(m.runs, r, m.active, now);
    if |m'.runs| == |m.runs| + 1 {
      ResumeOk(env, m, m1, r, now);
      assert m' == m1.(runs := m1.runs + [ResumeOf(m.runs[r], r, now)]);
    } else {
      assert m' == m1;
    }
  }

  lemma {:induction false} ReclaimRows(runs: seq<Run>, r: nat, active: bool, now: int)
    requires r < |runs|
    ensures var marked := runs[r := runs[r].(status := Abandoned)];
            Reclaim(runs, r, active, now) in {marked, marked + [ResumeOf(runs[r], r, now)]}
  {
  }

  // ---------------------------------------------------------------------------------------------
  // Steps of the worker
  // ---------------------------------------------------------------------------------------------

  lemma {:induction false} CheckpointOk(env: Env, m: Machine, sha: Sha)
    requires MachineOk(env, m) && Working(m) && m.worker.value.phase.Fetching?
    requires Checkpoint(m.runs, Me(m)) in {None, Some(sha)}
    ensures var run := Me(m).(archived := Some(sha));
            TablesOk(env, m.(runs := m.runs[m.worker.value.run := run], archive := m.archive + {sha}))
  {
    var r := m.worker.value.run;
    assert Gentle(m.runs[r], m.runs[r].(archived := Some(sha))) by {
      assert RunOk(m.runs, r);
    }
    hide TablesOk, Gentle;
    RunUpdateOk(env, m, r, m.runs[r].(archived := Some(sha)), m.archive + {sha});
  }

  /** The file stored and the run's checkpoint written. */
  function WithArchived(m: Machine, sha: Sha): Machine
    requires Working(m)
  {
    m.(archive := m.archive + {sha}, runs := m.runs[m.worker.value.run := Me(m).(archived := Some(sha))])
  }

  lemma {:induction false} ArchiveStepOk(env: Env, m: Machine, sha: Sha, header: bool)
    requires MachineOk(env, m) && Working(m) && m.worker.value.phase.Fetching? && Checkpoint(m.runs, Me(m)).None?
    ensures MachineOk(env, DoArchive(m, sha, header))
  {
    hide MachineOk, TablesOk, FreshQueued, NoUnfinishedOf, DoArchive, Finish, At, WithArchived, Checkpoint;
    var m1 := WithArchived(m, sha);
    ArchivedRow(env, m, sha);
    ArchiveLeads(m, sha, header);
    if DoArchive(m, sha, header) == At(m1, Archived(sha, header)) {
      ArchivedGoesOn(env, m, sha, header);
    } else {
      FinishOk(env, m1, NoChange);
      FinishOk(env, m1, RunHeld);
      FinishOk(env, m1, RunQuarantined);
    }
  }

  lemma {:induction false} ArchiveLeads(m: Machine, sha: Sha, header: bool)
    requires Working(m)
    ensures var m1 := WithArchived(m, sha);
            DoArchive(m, sha, header)
            in {At(m1, Archived(sha, header)), Finish(m1, NoChange), Finish(m1, RunHeld), Finish(m1, RunQuarantined)}
  {
    hide SameAsPublished, PendingSame, Finish, At;
  }

  lemma {:induction false} ArchivedRow(env: Env, m: Machine, sha: Sha)
    requires MachineOk(env, m) && Working(m) && m.worker.value.phase.Fetching? && Checkpoint(m.runs, Me(m)).None?
    ensures var m1 := WithArchived(m, sha);
            && TablesOk(env, m1) && FreshQueued(m1.runs) && Working(m1) && Me(m1).status == Running
            && NoUnfinishedOf(m1.store.versions, m1.worker.value.run)
  {
    CheckpointOk(env, m, sha);
    NoVersionNoUnfinished(m.store.versions, m.worker.value.run);
    hide TablesOk, NoUnfinishedOf, Checkpoint;
  }

  lemma {:induction false} ArchivedGoesOn(env: Env, m: Machine, sha: Sha, header: bool)
    requires MachineOk(env, m) && Working(m) && m.worker.value.phase.Fetching?
    requires TablesOk(env, WithArchived(m, sha)) && FreshQueued(WithArchived(m, sha).runs)
    ensures MachineOk(env, At(WithArchived(m, sha), Archived(sha, header)))
  {
    var m1 := WithArchived(m, sha);
    TablesIgnoreWorker(env, m1, At(m1, Archived(sha, header)));
    hide TablesOk, NoVersionOf, FreshQueued;
  }

  lemma {:induction false} ReuseStepOk(env: Env, m: Machine)
    requires MachineOk(env, m) && Working(m) && m.worker.value.phase.Fetching? && Checkpoint(m.runs, Me(m)).Some?
    ensures MachineOk(env, DoReuse(m))
  {
    var r, sha := m.worker.value.run, Checkpoint(m.runs, Me(m)).value;
    NoVersionNoUnfinished(m.store.versions, r);
    if sha in m.archive {
      var m1 := m.(runs := m.runs[r := Me(m).(archived := Some(sha))]);
      CheckpointOk(env, m, sha);
      assert m.archive + {sha} == m.archive;
      TablesIgnoreWorker(env, m1, At(m1, Archived(sha, false)));
    } else {
      FinishOk(env, m, Failed);
    }
  }

  lemma {:induction false} NextSeq(env: Env, m: Machine)
    requires TablesOk(env, m)
    ensures MaxSeq(m.store.versions) == |m.store.versions|
  {
    assert VersionsOk(m.store.versions, m.store.current);
    MaxSeqIsLength(m.store.versions);
  }

  lemma {:induction false} ValidateFileStepOk(env: Env, m: Machine)
    requires MachineOk(env, m) && Working(m) && m.worker.value.phase.Archived?
    ensures MachineOk(env, DoValidateFile(env, m, m.worker.value.phase.sha, m.worker.value.phase.header))
  {
    hide TablesOk, FileGood, VerdictOn, FirstByKey, MaxSeq;
    var sha, r, vs := m.worker.value.phase.sha, m.worker.value.run, m.store.versions;
    NextSeq(env, m);
    var reader := m.worker.value.cfg.reader;
    var ver := Version(|vs| + 1, r, sha, reader, DateRead(env, reader, sha), Candidate, 0, None);
    var m1 := m.(store := m.store.(versions := vs + [ver]));
    var m' := DoValidateFile(env, m, sha, m.worker.value.phase.header);
    assert m' == m1.(worker := m'.worker) && m'.worker.Some?;
    NewVersionOk(env, m, ver);
    TablesIgnoreWorker(env, m1, m');
  }

  lemma {:induction false} ParseStepOk(env: Env, m: Machine, staging: map<nat, seq<Rec>>, phase: Phase)
    requires MachineOk(env, m) && Working(m)
    requires forall k :: k != m.worker.value.run ==> Staged(staging, k) == Staged(m.staging, k)
    requires PhaseOk(env, At(m.(staging := staging), phase))
    ensures MachineOk(env, At(m.(staging := staging), phase))
  {
    hide TablesOk, PhaseOk;
    var m1 := m.(staging := staging);
    RunningHoldsNothing(env, m, m.worker.value.run);
    StagingOk(env, m, m.worker.value.run, staging);
    TablesIgnoreWorker(env, m1, At(m1, phase));
  }

  /** After the whole file is flushed, staging holds exactly the file's content. */
  lemma {:induction false} FinishParseStepOk(env: Env, m: Machine)
    requires MachineOk(env, m) && Working(m) && m.worker.value.phase.Parsing?
    requires m.worker.value.phase.upto == |env.records(m.worker.value.cfg.reader, m.worker.value.phase.sha)|
    ensures MachineOk(env, At(m, Parsed(m.worker.value.phase.sha, m.worker.value.phase.version)))
  {
    hide TablesOk, FreshQueued, VerdictOn, FirstByKey;
    var w := m.worker.value;
    assert env.records(w.cfg.reader, w.phase.sha)[..w.phase.upto] == env.records(w.cfg.reader, w.phase.sha);
    ParseStepOk(env, m, m.staging, Parsed(w.phase.sha, w.phase.version));
    assert m.(staging := m.staging) == m;
  }

  /** A verdict recorded on the worker's own version. */
  lemma {:induction false} VerdictTables(env: Env, m: Machine, v: nat, status: VersionStatus, count: nat)
    requires MachineOk(env, m) && Working(m) && m.worker.value.phase.Parsed? && v == m.worker.value.phase.version
    requires status in {Validated, Quarantined} || (status == Held && Me(m).options.dryRun)
    ensures TablesOk(env, WithStore(m, m.store.(versions := m.store.versions[v := m.store.versions[v].(status := status, recordCount := count)])))
  {
    assert Own(m, m.worker.value.phase.sha, v, Candidate);
    assert m.store.current.Some? ==> m.store.current.value < v;
    hide TablesOk, PhaseOk;
    VersionUpdateOk(env, m, v, m.store.versions[v].(status := status, recordCount := count));
  }

  /** A large change put on hold: version, proposal and run change together. */
  function HoldVersion(m: Machine, v: nat, count: nat): Machine
    requires Working(m) && v < |m.store.versions|
  {
    var st := m.store.(versions := m.store.versions[v := m.store.versions[v].(status := Held, recordCount := count)]);
    Finish(WithStore(m, st.(proposals := st.proposals + [Proposal(LargeChangeRelease(v), VALIDATOR, Awaiting, None)])), RunHeld)
  }

  lemma {:induction false} HoldProposals(ps: seq<Proposal>, vs: seq<Version>, removals: nat, runs: seq<Run>, v: nat, ver: Version, runs': seq<Run>)
    requires ProposalsOk(ps, vs, removals, runs) && v < |vs| && Unfinished(vs[v].status) && ver.status == Held && ver.run == vs[v].run
    requires vs[v].run < |runs| == |runs'| && !runs[vs[v].run].options.dryRun
    requires forall i :: 0 <= i < |runs| ==> runs'[i].options == runs[i].options
    ensures ProposalsOk(ps + [Proposal(LargeChangeRelease(v), VALIDATOR, Awaiting, None)], vs[v := ver], removals, runs')
  {
    var p := Proposal(LargeChangeRelease(v), VALIDATOR, Awaiting, None);
    forall i | 0 <= i < |ps| ensures ps[i].subject != p.subject && ProposalOk(ps[i], vs[v := ver], removals, runs') {
      assert ProposalOk(ps[i], vs, removals, runs);
    }
  }

  lemma {:induction false} HoldReleases(runs: seq<Run>, vs: seq<Version>, ps: seq<Proposal>, v: nat, ver: Version, r: nat, p: Proposal)
    requires ReleasesOk(runs, vs, ps) && v < |vs| && r < |runs| && ver.status == Held
    ensures ReleasesOk(runs[r := FinishRun(runs[r], RunHeld)], vs[v := ver], ps + [p])
  {
    ReleasesMore(runs, vs, ps, ps + [p]);
  }

  lemma {:induction false} HoldStore(env: Env, m: Machine, v: nat, count: nat)
    requires MachineOk(env, m) && Working(m) && m.worker.value.phase.Parsed? && v == m.worker.value.phase.version
    requires v < |m.store.versions|
    ensures StoreOk(HoldVersion(m, v, count).store)
  {
    var vs' := HoldVersion(m, v, count).store.versions;
    assert Own(m, m.worker.value.phase.sha, v, Candidate);
    assert StoreOk(m.store);
    hide PhaseOk, TablesOk;
    assert VersionsOk(vs', m.store.current);
    StoreVersionsOk(m.store, vs');
    assert Pub(HoldVersion(m, v, count).store) == Pub(m.store);
  }

  lemma {:induction false} HoldVersions(env: Env, vs: seq<Version>, runs: seq<Run>, staging: map<nat, seq<Rec>>, v: nat, r: nat)
    requires VersionsLinked(vs, runs) && HeldOk(env, vs, runs, staging) && v < |vs| && vs[v].run == r < |runs|
    requires Staged(staging, r) == ContentOf(env, vs[v])
    ensures var vs', runs' := vs[v := vs[v].(status := Held, recordCount := |Staged(staging, r)|)], runs[r := FinishRun(runs[r], RunHeld)];
            VersionsLinked(vs', runs') && HeldOk(env, vs', runs', staging)
  {
    hide FirstByKey, Content;
    var vs', runs' := vs[v := vs[v].(status := Held, recordCount := |Staged(staging, r)|)], runs[r := FinishRun(runs[r], RunHeld)];
    forall i | 0 <= i < |vs| && i != v ensures vs[i].run != r {
    }
  }

  lemma {:induction false} HoldRuns(env: Env, m: Machine)
    requires MachineOk(env, m) && Working(m)
    ensures var r := m.worker.value.run;
            && QueueOk(m.runs[r := FinishRun(m.runs[r], RunHeld)])
            && ArchiveOk(m.runs[r := FinishRun(m.runs[r], RunHeld)], m.archive)
            && OneSource(m.runs[r := FinishRun(m.runs[r], RunHeld)], m.source)
            && FreshQueued(m.runs[r := FinishRun(m.runs[r], RunHeld)])
  {
    var r := m.worker.value.run;
    assert RunOk(m.runs, r);
    UpdateKeepsQueueOk(m.runs, r, FinishRun(m.runs[r], RunHeld));
    hide StoreOk, QueueOk, VersionsLinked, ProposalsOk, ReleasesOk, HeldOk, LogLinked, ArchiveOk, PhaseOk;
    ArchiveUpdate(m.runs, r, FinishRun(m.runs[r], RunHeld), m.archive, m.archive);
  }

  /** While a parsed file is being judged, its version is an unfinished one of the running run, staged in full. */
  lemma {:induction false} ParsedFacts(env: Env, m: Machine)
    requires MachineOk(env, m) && Working(m) && m.worker.value.phase.Parsed?
    ensures var v := m.worker.value.phase.version;
            && v < |m.store.versions| && m.store.versions[v].run == m.worker.value.run && Unfinished(m.store.versions[v].status)
            && StagedOf(m, m.worker.value.run) == ContentOf(env, m.store.versions[v])
  {
    hide TablesOk, FirstByKey;
  }

  lemma {:induction false} HoldReview(env: Env, m: Machine, v: nat)
    requires MachineOk(env, m) && Working(m) && m.worker.value.phase.Parsed? && v == m.worker.value.phase.version
    requires !Me(m).options.dryRun && v < |m.store.versions|
    ensures var m' := HoldVersion(m, v, |StagedOf(m, m.worker.value.run)|);
            && VersionsLinked(m'.store.versions, m'.runs)
            && ProposalsOk(m'.store.proposals, m'.store.versions, |m'.store.removals|, m'.runs)
            && ReleasesOk(m'.runs, m'.store.versions, m'.store.proposals)
            && HeldOk(env, m'.store.versions, m'.runs, m'.staging)
            && LogLinked(env, m'.store.log, m'.store.versions, m'.runs)
  {
    hide StoreOk, QueueOk, VersionsLinked, ProposalsOk, ReleasesOk, HeldOk, LogLinked, ArchiveOk, PhaseOk, FirstByKey;
    var r, st := m.worker.value.run, m.store;
    var m' := HoldVersion(m, v, |StagedOf(m, r)|);
    ParsedFacts(env, m);
    HoldVersions(env, st.versions, m.runs, m.staging, v, r);
    LogVersions(env, st.log, st.versions, m'.store.versions, m.runs);
    LogRuns(env, st.log, m'.store.versions, m.runs, m'.runs);
    HoldProposals(st.proposals, st.versions, |st.removals|, m.runs, v, m'.store.versions[v], m'.runs);
    HoldReleases(m.runs, st.versions, st.proposals, v, m'.store.versions[v], r, Proposal(LargeChangeRelease(v), VALIDATOR, Awaiting, None));
  }

  lemma {:induction false} HoldStepOk(env: Env, m: Machine, v: nat)
    requires MachineOk(env, m) && Working(m) && m.worker.value.phase.Parsed? && v == m.worker.value.phase.version
    requires !Me(m).options.dryRun && v < |m.store.versions|
    ensures MachineOk(env, HoldVersion(m, v, |StagedOf(m, m.worker.value.run)|))
  {
    HoldStore(env, m, v, |StagedOf(m, m.worker.value.run)|);
    HoldReview(env, m, v);
    HoldRuns(env, m);
    hide StoreOk, QueueOk, VersionsLinked, ProposalsOk, ReleasesOk, HeldOk, LogLinked, ArchiveOk, PhaseOk, FirstByKey, OneSource, FreshQueued;
  }

  lemma {:induction false} ValidateRecordsStepOk(env: Env, m: Machine)
    requires MachineOk(env, m) && Working(m) && m.worker.value.phase.Parsed?
    ensures MachineOk(env, DoValidateRecords(env, m, m.worker.value.phase.sha, m.worker.value.phase.version))
  {
    var w := m.worker.value;
    var v, staged := w.phase.version, StagedOf(m, w.run);
    var verdict := VerdictOn(env, w.cfg, w.phase.sha, Open(m.store.rows), staged);
    ParsedFacts(env, m);
    if verdict.Quarantine? {
      QuarantineStepOk(env, m, v, |staged|);
    } else if verdict.Hold? && !Me(m).options.dryRun {
      HoldStepOk(env, m, v);
    } else {
      DecidedStepOk(env, m, v, verdict.Hold?);
    }
  }

  lemma {:induction false} QuarantineStepOk(env: Env, m: Machine, v: nat, count: nat)
    requires MachineOk(env, m) && Working(m) && m.worker.value.phase.Parsed? && v == m.worker.value.phase.version
    requires v < |m.store.versions|
    ensures MachineOk(env, Finish(WithStore(m, m.store.(versions := m.store.versions[v := m.store.versions[v].(status := Quarantined, recordCount := count)])), RunQuarantined))
  {
    hide *;
    WorkerRunning(env, m);
    QuarantineCloses(env, m, v, count);
    VerdictTables(env, m, v, Quarantined, count);
    var store := m.store.(versions := m.store.versions[v := m.store.versions[v].(status := Quarantined, recordCount := count)]);
    SameWorker(m, store);
    FinishOk(env, WithStore(m, store), RunQuarantined);
  }

  lemma {:induction false} SameWorker(m: Machine, store: Store)
    requires Working(m)
    ensures Working(WithStore(m, store)) && Me(WithStore(m, store)) == Me(m)
    ensures WithStore(m, store).worker == m.worker && WithStore(m, store).runs == m.runs && WithStore(m, store).store == store
  {
  }

  lemma {:induction false} QuarantineCloses(env: Env, m: Machine, v: nat, count: nat)
    requires MachineOk(env, m) && Working(m) && m.worker.value.phase.Parsed? && v == m.worker.value.phase.version
    requires v < |m.store.versions|
    ensures FreshQueued(m.runs) && Terminal(RunQuarantined)
    ensures NoUnfinishedOf(m.store.versions[v := m.store.versions[v].(status := Quarantined, recordCount := count)], m.worker.value.run)
  {
    ParsedFacts(env, m);
    assert VersionsLinked(m.store.versions, m.runs);
    hide TablesOk, PhaseOk, StagedOf, ContentOf, FreshQueued;
  }

  lemma {:induction false} DecidedStepOk(env: Env, m: Machine, v: nat, hold: bool)
    requires MachineOk(env, m) && Working(m) && m.worker.value.phase.Parsed? && v == m.worker.value.phase.version
    requires v < |m.store.versions| && (hold ==> Me(m).options.dryRun)
    requires var w := m.worker.value;
             !hold ==> VerdictOn(env, w.cfg, w.phase.sha, Open(m.store.rows), StagedOf(m, w.run)) == V.Pass
    ensures var ver := m.store.versions[v].(status := if hold then Held else Validated, recordCount := |StagedOf(m, m.worker.value.run)|);
            MachineOk(env, At(WithStore(m, m.store.(versions := m.store.versions[v := ver])), Decided(m.worker.value.phase.sha, v, hold)))
  {
    hide TablesOk, VerdictOn, FirstByKey, Open;
    var w := m.worker.value;
    var count := |StagedOf(m, w.run)|;
    VerdictTables(env, m, v, if hold then Held else Validated, count);
    var m1 := WithStore(m, m.store.(versions := m.store.versions[v := m.store.versions[v].(status := if hold then Held else Validated, recordCount := count)]));
    TablesIgnoreWorker(env, m1, At(m1, Decided(w.phase.sha, v, hold)));
  }

  lemma {:induction false} DryRunStepOk(env: Env, m: Machine)
    requires MachineOk(env, m) && Working(m) && m.worker.value.phase.Decided? && Me(m).options.dryRun
    ensures MachineOk(env, Finish(WithStore(m, MarkVersion(m.store, m.worker.value.phase.version, Rejected)), DryRunOk))
  {
    var v := m.worker.value.phase.version;
    WorkerRunning(env, m);
    DecidedOwn(env, m);
    assert FreshQueued(m.runs) && TablesOk(env, m);
    OnlyVersionClosed(env, m, v);
    assert m.store.versions[v].status == Held || Unfinished(m.store.versions[v].status);
    hide MachineOk, TablesOk, FreshQueued, NoUnfinishedOf, Finish;
    VersionUpdateOk(env, m, v, m.store.versions[v].(status := Rejected));
    FinishOk(env, WithStore(m, MarkVersion(m.store, v, Rejected)), DryRunOk);
  }

  lemma {:induction false} DecidedOwn(env: Env, m: Machine)
    requires MachineOk(env, m) && Working(m) && m.worker.value.phase.Decided?
    ensures var v := m.worker.value.phase.version;
            && v < |m.store.versions| && m.store.versions[v].run == m.worker.value.run && m.store.versions[v].status in {Held, Validated}
  {
    hide TablesOk, VerdictOn, FirstByKey, Open;
  }

  /** Its only version rejected, the run leaves none unfinished. */
  lemma {:induction false} OnlyVersionClosed(env: Env, m: Machine, v: nat)
    requires MachineOk(env, m) && v < |m.store.versions|
    ensures NoUnfinishedOf(MarkVersion(m.store, v, Rejected).versions, m.store.versions[v].run)
  {
    assert VersionsLinked(m.store.versions, m.runs);
    hide TablesOk, WorkerOk;
  }

  // ---------------------------------------------------------------------------------------------
  // Publishing steps: never refused
  // ---------------------------------------------------------------------------------------------

  /** A publish by a running run of a version it is entitled to, in full: it is never refused. */
  lemma {:induction false} EntitledPublishes(env: Env, m: Machine, v: nat, who: Option<Actor>)
    requires MachineOk(env, m) && Working(m) && Entitled(m, m.worker.value.run, v) && Publishable(m.store, v)
    ensures DoPublish(m, v, ContentOf(env, m.store.versions[v]), who)
         == Finish(WithStore(m, PublishEffect(m.store, v, ContentOf(env, m.store.versions[v]), m.worker.value.run, who)), Succeeded)
    ensures MachineOk(env, DoPublish(m, v, ContentOf(env, m.store.versions[v]), who))
  {
    assert StoreOk(m.store);
    hide TablesOk, PhaseOk, StoreOk, PublishEffect, Content, ContentOf;
    PublishSucceedsIff(m.store, v, ContentOf(env, m.store.versions[v]), m.worker.value.run, who);
    EntitledFinishes(env, m, v, who);
  }

  lemma {:induction false} EntitledFinishes(env: Env, m: Machine, v: nat, who: Option<Actor>)
    requires MachineOk(env, m) && Working(m) && Entitled(m, m.worker.value.run, v) && Publishable(m.store, v)
    ensures MachineOk(env, Finish(WithStore(m, PublishEffect(m.store, v, ContentOf(env, m.store.versions[v]), m.worker.value.run, who)), Succeeded))
  {
    hide TablesOk, PhaseOk, PublishEffect, Content, ContentOf, Publishable;
    PublishKeepsTablesOk(env, m, m.worker.value.run, v, who);
    var m' := Finish(WithStore(m, PublishEffect(m.store, v, ContentOf(env, m.store.versions[v]), m.worker.value.run, who)), Succeeded);
    TablesIgnoreWorker(env, m'.(worker := m.worker), m');
  }

  lemma {:induction false} DecidedFacts(env: Env, m: Machine)
    requires MachineOk(env, m) && Working(m) && m.worker.value.phase.Decided? && !m.worker.value.phase.hold
    ensures var w := m.worker.value;
            && Own(m, w.phase.sha, w.phase.version, Validated) && Me(m).status == Running
            && StagedOf(m, w.run) == Content(env, w.cfg.reader, w.phase.sha)
            && VerdictOn(env, w.cfg, w.phase.sha, Open(m.store.rows), Content(env, w.cfg.reader, w.phase.sha)) == V.Pass
  {
    hide TablesOk, FirstByKey, VerdictOn, Open;
  }

  lemma {:induction false} DecidedIsPublishable(env: Env, m: Machine)
    requires MachineOk(env, m) && Working(m) && m.worker.value.phase.Decided? && !m.worker.value.phase.hold
    ensures var v := m.worker.value.phase.version;
            && Entitled(m, m.worker.value.run, v) && Publishable(m.store, v)
            && StagedOf(m, m.worker.value.run) == ContentOf(env, m.store.versions[v])
            && m.store.versions[v].sha == m.worker.value.phase.sha
  {
    DecidedFacts(env, m);
    LiveVersions(env, m);
    hide MachineOk, Content, VerdictOn, Open, StagedOf, VersionsOk;
    NewestIsPublishable(m.store, m.worker.value.phase.version);
  }

  lemma {:induction false} LiveVersions(env: Env, m: Machine)
    requires MachineOk(env, m)
    ensures VersionsOk(m.store.versions, m.store.current)
  {
    hide VersionsOk;
  }

  lemma {:induction false} NewestIsPublishable(st: Store, v: nat)
    requires VersionsOk(st.versions, st.current) && v + 1 == |st.versions| && st.versions[v].status == Validated
    ensures Publishable(st, v)
  {
  }

  /** DIFF_PUBLISH always goes through. */
  lemma {:induction false} DiffPublishGoesThrough(env: Env, m: Machine)
    requires MachineOk(env, m) && Working(m) && m.worker.value.phase.Decided? && !m.worker.value.phase.hold && !Me(m).options.dryRun
    ensures m.worker.value.phase.version < |m.store.versions|
    ensures var v := m.worker.value.phase.version;
            var st' := PublishEffect(m.store, v, ContentOf(env, m.store.versions[v]), m.worker.value.run, None);
            && m.store.versions[v].sha == m.worker.value.phase.sha
            && Step(env, m, DiffPublish) == Finish(WithStore(m, st'), Succeeded)
    ensures MachineOk(env, Step(env, m, DiffPublish))
  {
    hide MachineOk, PublishEffect, Content, ContentOf, DoPublish;
    DecidedIsPublishable(env, m);
    EntitledPublishes(env, m, m.worker.value.phase.version, None);
  }

  lemma {:induction false} ReleasingIsPublishable(env: Env, m: Machine)
    requires MachineOk(env, m) && Working(m) && m.worker.value.phase.Releasing?
    ensures Me(m).kind.ReleaseHeld?
    ensures var v := Me(m).kind.version;
            && Entitled(m, m.worker.value.run, v) && Publishable(m.store, v) && m.store.versions[v].status == Held
            && StagedOf(m, m.store.versions[v].run) == ContentOf(env, m.store.versions[v])
            && m.store.versions[v].recordCount == |ContentOf(env, m.store.versions[v])|
  {
    var v := Me(m).kind.version;
    assert VersionsOk(m.store.versions, m.store.current);
    assert ReleasesOk(m.runs, m.store.versions, m.store.proposals) && VersionsLinked(m.store.versions, m.runs);
    assert ReleaseApproved(m.store.proposals, v);
    var p :| 0 <= p < |m.store.proposals| && m.store.proposals[p].subject == LargeChangeRelease(v) && m.store.proposals[p].status == Applied;
    assert ProposalOk(m.store.proposals[p], m.store.versions, |m.store.removals|, m.runs);
    hide StoreOk, QueueOk, ProposalsOk, LogLinked, ArchiveOk, FirstByKey, VersionsOk, PhaseOk;
    assert HeldOk(env, m.store.versions, m.runs, m.staging);
  }

  /** An approved release always goes through, and publishes exactly the file that was held. */
  lemma {:induction false} PublishHeldGoesThrough(env: Env, m: Machine)
    requires MachineOk(env, m) && Working(m) && m.worker.value.phase.Releasing?
    ensures Me(m).kind.ReleaseHeld? && Me(m).kind.version < |m.store.versions|
    ensures var v := Me(m).kind.version;
            var recs := ContentOf(env, m.store.versions[v]);
            var st' := PublishEffect(m.store, v, recs, m.worker.value.run, Some(Me(m).requestedBy));
            Step(env, m, PublishHeld) == Finish(WithStore(m, st'), Succeeded)
    ensures MachineOk(env, Step(env, m, PublishHeld))
  {
    hide MachineOk, PublishEffect, Content, ContentOf, DoPublish;
    ReleasingIsPublishable(env, m);
    EntitledPublishes(env, m, Me(m).kind.version, Some(Me(m).requestedBy));
  }

  // ---------------------------------------------------------------------------------------------
  // The theorem
  // ---------------------------------------------------------------------------------------------

  lemma {:induction false} WorkerStepOk(env: Env, m: Machine, e: Event)
    requires MachineOk(env, m) && Working(m) && OfWorker(e)
    ensures MachineOk(env, WorkerStep(env, m, e))
  {
    hide MachineOk, DoArchive, DoReuse, DoValidateFile, DoValidateRecords, DoPublish, DoPublishHeld, DoStopInternal, DoStopCancelled;
    hide Checkpoint, CloseVersion, MarkVersion, FirstByKey, Finish;
    var w, r := m.worker.value, Me(m);
    match e {
      case FetchFailed => EarlyStopOk(env, m, Failed);
      case NotModified => EarlyStopOk(env, m, NoChange);
      case FetchAndArchive(sha, header) => if w.phase.Fetching? && Checkpoint(m.runs, r).None? { ArchiveStepOk(env, m, sha, header); }
      case ReuseArchive => if w.phase.Fetching? && Checkpoint(m.runs, r).Some? { ReuseStepOk(env, m); }
      case ValidateFile => if w.phase.Archived? { ValidateFileStepOk(env, m); }
      case FailData => FailDataStepOk(env, m);
      case StagingFailed => StagingFailedStepOk(env, m);
      case StartParse => if w.phase.FileChecked? { StartParseStepOk(env, m); }
      case FlushBatch(upto) => FlushStepOk(env, m, upto);
      case FinishParse => if w.phase.Parsing? && w.phase.upto == |env.records(w.cfg.reader, w.phase.sha)| { FinishParseStepOk(env, m); }
      case ValidateRecords => if w.phase.Parsed? { ValidateRecordsStepOk(env, m); }
      case FinishDryRun => if w.phase.Decided? && r.options.dryRun { DryRunStepOk(env, m); }
      case DiffPublish => if w.phase.Decided? && !r.options.dryRun && !w.phase.hold { DiffPublishGoesThrough(env, m); }
      case PublishHeld => if w.phase.Releasing? { PublishHeldGoesThrough(env, m); }
      case StopCancelled => StopCancelledOk(env, m);
      case StopInternal => StopInternalOk(env, m);
      case Crash => CrashOk(env, m);
      case _ =>
    }
  }

  lemma {:induction false} EarlyStopOk(env: Env, m: Machine, status: RunStatus)
    requires MachineOk(env, m) && Working(m) && Terminal(status)
    ensures m.worker.value.phase.Fetching? ==> MachineOk(env, Finish(m, status))
  {
    hide TablesOk, FreshQueued, PhaseOk;
    StopOk(env, m, Rejected, status);
  }

  lemma {:induction false} FailDataStepOk(env: Env, m: Machine)
    requires MachineOk(env, m) && Working(m)
    ensures MachineOk(env, WorkerStep(env, m, FailData))
  {
    hide MachineOk, CloseVersion, Finish;
    StopOk(env, m, Quarantined, RunQuarantined);
  }

  lemma {:induction false} StagingFailedStepOk(env: Env, m: Machine)
    requires MachineOk(env, m) && Working(m)
    ensures MachineOk(env, WorkerStep(env, m, StagingFailed))
  {
    hide MachineOk, CloseVersion, Finish;
    StopOk(env, m, Quarantined, RunQuarantined);
  }

  /** A crash loses the worker's memory and nothing else. */
  lemma {:induction false} CrashOk(env: Env, m: Machine)
    requires MachineOk(env, m)
    ensures MachineOk(env, m.(worker := None))
  {
    hide TablesOk, PhaseOk, FreshQueued;
    TablesIgnoreWorker(env, m, m.(worker := None));
  }

  lemma {:induction false} StartParseStepOk(env: Env, m: Machine)
    requires MachineOk(env, m) && Working(m) && m.worker.value.phase.FileChecked?
    ensures MachineOk(env, WorkerStep(env, m, StartParse))
  {
    var w := m.worker.value;
    var staging, phase := m.staging[w.run := []], Parsing(w.phase.sha, w.phase.version, 0);
    hide *;
    EmptyParsing(env, m);
    StartParseIs(env, m);
    ParseStepOk(env, m, staging, phase);
  }

  lemma {:induction false} StartParseIs(env: Env, m: Machine)
    requires Working(m) && m.worker.value.phase.FileChecked?
    ensures var w := m.worker.value;
            WorkerStep(env, m, StartParse) == At(m.(staging := m.staging[w.run := []]), Parsing(w.phase.sha, w.phase.version, 0))
    ensures forall k :: k != m.worker.value.run ==> Staged(m.staging[m.worker.value.run := []], k) == Staged(m.staging, k)
  {
  }

  lemma {:induction false} EmptyParsing(env: Env, m: Machine)
    requires MachineOk(env, m) && Working(m) && m.worker.value.phase.FileChecked?
    ensures var w := m.worker.value;
            PhaseOk(env, At(m.(staging := m.staging[w.run := []]), Parsing(w.phase.sha, w.phase.version, 0)))
  {
    var w := m.worker.value;
    assert env.records(w.cfg.reader, w.phase.sha)[..0] == [];
    hide TablesOk, VerdictOn, Open;
  }

  lemma {:induction false} FlushStepOk(env: Env, m: Machine, upto: nat)
    requires MachineOk(env, m) && Working(m)
    ensures MachineOk(env, WorkerStep(env, m, FlushBatch(upto)))
  {
    hide TablesOk, FreshQueued, VerdictOn, FirstByKey;
    var w := m.worker.value;
    if w.phase.Parsing? && w.phase.upto < upto <= |env.records(w.cfg.reader, w.phase.sha)| {
      ParseStepOk(env, m, m.staging[w.run := FirstByKey(env.records(w.cfg.reader, w.phase.sha)[..upto])], w.phase.(upto := upto));
    }
  }

  lemma {:induction false} StopInternalOk(env: Env, m: Machine)
    requires MachineOk(env, m) && Working(m)
    ensures MachineOk(env, DoStopInternal(m))
  {
    assert DoStopInternal(m) == Finish(Closed(m, Rejected), Failed);
    hide MachineOk, DoStopInternal, Finish, Closed;
    StopOk(env, m, Rejected, Failed);
  }

  /** A cancelled run's version is closed and its staging dropped. */
  lemma {:induction false} CancelledTables(env: Env, m: Machine)
    requires MachineOk(env, m) && Working(m)
    ensures var r, st := m.worker.value.run, Closed(m, Rejected).store;
            TablesOk(env, m.(store := st, staging := m.staging - {r})) && NoUnfinishedOf(st.versions, r)
  {
    hide MachineOk, TablesOk, Closed, NoUnfinishedOf;
    var r, m1 := m.worker.value.run, Closed(m, Rejected);
    ClosedOk(env, m, Rejected);
    WorkerRunning(env, m);
    RunningHoldsNothing(env, m1, r);
    StagingOk(env, m1, r, m.staging - {r});
    assert m1.(staging := m.staging - {r}) == m.(store := m1.store, staging := m.staging - {r});
  }

  lemma {:induction false} WorkerRunning(env: Env, m: Machine)
    requires MachineOk(env, m) && Working(m)
    ensures Me(m).status == Running
  {
    hide TablesOk, PhaseOk;
  }

  lemma {:induction false} StopCancelledOk(env: Env, m: Machine)
    requires MachineOk(env, m) && Working(m)
    ensures MachineOk(env, DoStopCancelled(m))
  {
    hide MachineOk, TablesOk, Closed, Finish, DoStopCancelled, NoUnfinishedOf;
    CancelledTables(env, m);
    CancelledIsClosed(m);
    FinishFrom(env, m, Closed(m, Rejected).store, m.staging - {m.worker.value.run}, Cancelled);
  }

  lemma {:induction false} CancelledIsClosed(m: Machine)
    requires Working(m)
    ensures DoStopCancelled(m)
            == Finish(m.(store := Closed(m, Rejected).store, staging := m.staging - {m.worker.value.run}), Cancelled)
  {
    hide CloseVersion;
  }

  lemma {:induction false} TableStepOk(env: Env, m: Machine, e: Event)
    requires MachineOk(env, m) && !OfWorker(e)
    ensures MachineOk(env, TableStep(m, e))
  {
    hide MachineOk, DoDecide, DoReclaim, Assess, Enqueue, BeatRun, CancelRun, HoldsVersion;
    match e {
      case EnqueueIngest(options, who, batch, now, notBefore) =>
        EnqueueOk(env, m, NewRun(m.source, ListIngest, options, who, batch, now, notBefore));
      case Claim(r, worker, now, lease) => if r < |m.runs| && Claimable(m.runs[r], now) { ClaimOk(env, m, r, worker, now, lease); }
      case Heartbeat(r, worker, now, lease) => if r < |m.runs| { HeartbeatOk(env, m, r, worker, now, lease); }
      case RequestCancel(r) => if r < |m.runs| { CancelOk(env, m, r); }
      case PurgeStaging(r) => if r < |m.runs| && !Active(m.runs[r].status) && !HoldsVersion(m.store.versions, r) { PurgeOk(env, m, r); }
      case ReclaimRun(r, now) => if r < |m.runs| && LeaseExpired(m.runs[r], now) && m.worker.None? { ReclaimOk(env, m, r, now); }
      case AssessRemoval(c, evidence, hits, suspects, who) => AssessOk(env, m, c, evidence, hits, suspects, who);
      case Decide(p, reviewer, role, approve, resolution, batch, now) =>
        if p < |m.store.proposals| { DecideOk(env, m, p, reviewer, role, approve, resolution, batch, now); }
      case SetActive(on) => SettingOk(env, m, m.(active := on));
      case SetConfig(config) => SettingOk(env, m, m.(cfg := config));
      case _ =>
    }
  }

  lemma {:induction false} SettingOk(env: Env, m: Machine, m': Machine)
    requires MachineOk(env, m) && m' == m.(active := m'.active, cfg := m'.cfg)
    ensures MachineOk(env, m')
  {
    TablesIgnoreWorker(env, m, m');
    WorkerFrame(env, m, m');
  }

  /** Every event keeps the invariant. */
  lemma {:induction false} StepKeepsMachineOk(env: Env, m: Machine, e: Event)
    requires MachineOk(env, m)
    ensures MachineOk(env, Step(env, m, e))
  {
    hide MachineOk, WorkerStep, TableStep;
    if OfWorker(e) {
      if Working(m) {
        WorkerStepOk(env, m, e);
      }
    } else {
      TableStepOk(env, m, e);
    }
  }

  /** Every reachable state, under any interleaving of runs, crashes, reclaims and reviewers, satisfies the invariant. */
  lemma {:induction false} ExecuteKeepsMachineOk(env: Env, m: Machine, es: seq<Event>)
    requires MachineOk(env, m)
    ensures MachineOk(env, Execute(env, m, es))
  {
    if es != [] {
      ExecuteKeepsMachineOk(env, m, es[..|es| - 1]);
      StepKeepsMachineOk(env, Execute(env, m, es[..|es| - 1]), es[|es| - 1]);
    }
  }
}
