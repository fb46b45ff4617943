/** The invariant of the pipeline machine and the proof that every event keeps it. */
module PipelineInvariant {
  import opened Base
  import opened Canonical
  import opened Scd2
  import opened ListStore
  import opened ListStoreProofs
  import opened Staging
  import opened RunQueue
  import opened Pipeline
  import V = Validation

  // ---------------------------------------------------------------------------------------------
  // Parts
  // ---------------------------------------------------------------------------------------------

  /** Every version was created by a run of its own; a version still in work belongs to a run still running. */
  ghost predicate VersionsLinked(vs: seq<Version>, runs: seq<Run>) {
    && (forall i :: 0 <= i < |vs| ==>
          && vs[i].run < |runs| && runs[vs[i].run].claims == 1 && runs[vs[i].run].kind == ListIngest
          && (Unfinished(vs[i].status) ==> runs[vs[i].run].status == Running))
    && (forall i, j :: 0 <= i < j < |vs| ==> vs[i].run != vs[j].run)
  }

  /** A proposal names something that exists; a release awaits its decision only while the version is held. */
  ghost predicate ProposalOk(p: Proposal, vs: seq<Version>, removals: nat, runs: seq<Run>) {
    && (match p.subject
        case LargeChangeRelease(v) =>
          && v < |vs| && vs[v].run < |runs| && !runs[vs[v].run].options.dryRun && p.proposedBy == VALIDATOR
          && !Unfinished(vs[v].status)
          && (p.status == Awaiting ==> vs[v].status == Held)
        case RemovalConfirmation(c, _) => c < removals)
    && (p.status in {Applied, Declined} ==> p.reviewedBy.Some? && p.reviewedBy.value != p.proposedBy)
  }

  ghost predicate ProposalsOk(ps: seq<Proposal>, vs: seq<Version>, removals: nat, runs: seq<Run>) {
    && (forall i :: 0 <= i < |ps| ==> ProposalOk(ps[i], vs, removals, runs))
    && (forall i, j :: 0 <= i < j < |ps| && ps[i].subject.LargeChangeRelease? ==> ps[i].subject != ps[j].subject)
  }

  /** A reviewer other than the proposer approved the release of version `v`. */
  ghost predicate ReleaseApproved(ps: seq<Proposal>, v: nat) {
    exists p :: 0 <= p < |ps| && ps[p].subject == LargeChangeRelease(v) && ps[p].status == Applied
  }

  /** A release run exists only after an approval, and while it is active its version stays held. */
  ghost predicate ReleasesOk(runs: seq<Run>, vs: seq<Version>, ps: seq<Proposal>) {
    forall r :: 0 <= r < |runs| && runs[r].kind.ReleaseHeld? ==>
      && ReleaseApproved(ps, runs[r].kind.version)
      && runs[r].kind.version < |vs|
      && (Active(runs[r].status) ==> vs[runs[r].kind.version].status == Held)
  }

  /** A held version of a real run keeps exactly the staging its reviewer will publish. */
  ghost predicate HeldOk(env: Env, vs: seq<Version>, runs: seq<Run>, staging: map<nat, seq<Rec>>) {
    forall i :: 0 <= i < |vs| && vs[i].status == Held && vs[i].run < |runs| && !runs[vs[i].run].options.dryRun ==>
      && runs[vs[i].run].status == RunHeld
      && Staged(staging, vs[i].run) == ContentOf(env, vs[i])
      && vs[i].recordCount == |ContentOf(env, vs[i])|
  }

  /** Every publication was made by a succeeded run of its own, from the archived file of its version. */
  ghost predicate LogLinked(env: Env, log: seq<Publication>, vs: seq<Version>, runs: seq<Run>) {
    && (forall i :: 0 <= i < |log| ==>
          && log[i].run < |runs| && runs[log[i].run].status == Succeeded
          && 1 <= log[i].seqNo <= |vs| && log[i].content == AsMap(ContentOf(env, vs[log[i].seqNo - 1]))
          && PublishedOrSuperseded(vs[log[i].seqNo - 1].status))
    && (forall i, j :: 0 <= i < j < |log| ==> log[i].run != log[j].run)
  }

  /** Checkpoints point at archived bytes, and a resumed run works on the bytes its predecessor archived. */
  ghost predicate ArchiveOk(runs: seq<Run>, archive: set<Sha>) {
    forall r :: 0 <= r < |runs| && runs[r].archived.Some? ==>
      && runs[r].archived.value in archive
      && (runs[r].resumedFrom.Some? && runs[r].resumedFrom.value < r && runs[runs[r].resumedFrom.value].archived.Some? ==>
            runs[r].archived == runs[runs[r].resumedFrom.value].archived)
  }

  ghost predicate OneSource(runs: seq<Run>, source: SourceId) {
    forall i :: 0 <= i < |runs| ==> runs[i].source == source
  }

  ghost predicate TablesOk(env: Env, m: Machine) {
    && StoreOk(m.store)
    && QueueOk(m.runs)
    && OneSource(m.runs, m.source)
    && VersionsLinked(m.store.versions, m.runs)
    && ProposalsOk(m.store.proposals, m.store.versions, |m.store.removals|, m.runs)
    && ReleasesOk(m.runs, m.store.versions, m.store.proposals)
    && HeldOk(env, m.store.versions, m.runs, m.staging)
    && LogLinked(env, m.store.log, m.store.versions, m.runs)
    && ArchiveOk(m.runs, m.archive)
  }

  ghost predicate NoVersionOf(vs: seq<Version>, run: nat) {
    forall i :: 0 <= i < |vs| ==> vs[i].run != run
  }

  /** The worker's version is the newest one, its own, and in the expected state. */
  ghost predicate Own(m: Machine, sha: Sha, v: nat, status: VersionStatus)
    requires Working(m)
  {
    && Me(m).archived == Some(sha) && v + 1 == |m.store.versions|
    && m.store.versions[v].run == m.worker.value.run && m.store.versions[v].sha == sha
    && m.store.versions[v].reader == m.worker.value.cfg.reader
    && m.store.versions[v].status == status
  }

  ghost predicate PhaseOk(env: Env, m: Machine)
    requires Working(m)
  {
    var w := m.worker.value;
    match w.phase
    case Fetching => Me(m).kind == ListIngest && Me(m).archived == None && NoVersionOf(m.store.versions, w.run)
    case Archived(sha, _) => Me(m).kind == ListIngest && Me(m).archived == Some(sha) && NoVersionOf(m.store.versions, w.run)
    case FileRejected(sha, v) => Own(m, sha, v, Candidate)
    case FileChecked(sha, v) => Own(m, sha, v, Candidate)
    case Parsing(sha, v, upto) =>
      Own(m, sha, v, Candidate) && upto <= |env.records(w.cfg.reader, sha)|
      && StagedOf(m, w.run) == FirstByKey(env.records(w.cfg.reader, sha)[..upto])
    case Parsed(sha, v) => Own(m, sha, v, Candidate) && StagedOf(m, w.run) == Content(env, w.cfg.reader, sha)
    case Decided(sha, v, hold) =>
      && Own(m, sha, v, if hold then Held else Validated) && StagedOf(m, w.run) == Content(env, w.cfg.reader, sha)
      && (hold ==> Me(m).options.dryRun)
      && (!hold ==> VerdictOn(env, w.cfg, sha, Open(m.store.rows), Content(env, w.cfg.reader, sha)) == V.Pass)
    case Releasing => Me(m).kind.ReleaseHeld?
  }

  ghost predicate WorkerOk(env: Env, m: Machine) {
    m.worker.Some? ==> Working(m) && Me(m).status == Running && PhaseOk(env, m)
  }

  /** An active run is the newest one, and has no checkpoint before it is claimed. */
  ghost predicate FreshQueued(runs: seq<Run>) {
    forall r :: 0 <= r < |runs| ==>
      (runs[r].status == Queued ==> runs[r].archived == None) && (Active(runs[r].status) ==> r == |runs| - 1)
  }

  ghost predicate MachineOk(env: Env, m: Machine) {
    TablesOk(env, m) && WorkerOk(env, m) && FreshQueued(m.runs)
  }

  lemma {:induction false} StartOk(env: Env, source: SourceId, cfg: Settings)
    ensures MachineOk(env, Start(source, cfg))
  {
    hide StoreOk, FirstByKey, PhaseOk;
    EmptyStoreOk();
  }

  // ---------------------------------------------------------------------------------------------
  // Changes to one run
  // ---------------------------------------------------------------------------------------------

  ghost predicate NoUnfinishedOf(vs: seq<Version>, run: nat) {
    forall i :: 0 <= i < |vs| && vs[i].run == run ==> !Unfinished(vs[i].status)
  }

  /** A change to one run that the tables tolerate. */
  ghost predicate Gentle(r: Run, r': Run) {
    && Forward(r, r') && r.claims <= r'.claims
    && (r.status in {RunHeld, Succeeded} ==> r'.status == r.status)
  }

  lemma {:induction false} RunUpdateOk(env: Env, m: Machine, r: nat, run: Run, archive: set<Sha>)
    requires TablesOk(env, m) && r < |m.runs| && Gentle(m.runs[r], run) && m.archive <= archive
    requires run.status == Running || NoUnfinishedOf(m.store.versions, r)
    requires run.archived == m.runs[r].archived
             || (m.runs[r].archived == None && m.runs[r].status == Running && run.archived.Some? && run.archived.value in archive
                 && (m.runs[r].resumedFrom.Some? && m.runs[r].resumedFrom.value < r && m.runs[m.runs[r].resumedFrom.value].archived.Some? ==>
                       run.archived == m.runs[m.runs[r].resumedFrom.value].archived))
    ensures TablesOk(env, m.(runs := m.runs[r := run], archive := archive))
  {
    hide StoreOk, ProposalsOk, ReleasesOk, HeldOk, LogLinked, VersionsLinked, ArchiveOk;
    var st := m.store;
    UpdateKeepsQueueOk(m.runs, r, run);
    VersionsLinkedRunUpdate(st.versions, m.runs, r, run);
    ProposalsRuns(st.proposals, st.versions, |st.removals|, m.runs, m.runs[r := run]);
    ReleasesRunUpdate(m.runs, st.versions, st.proposals, r, run);
    HeldRunUpdate(env, st.versions, m.runs, m.staging, r, run);
    LogRuns(env, st.log, st.versions, m.runs, m.runs[r := run]);
    ArchiveUpdate(m.runs, r, run, m.archive, archive);
  }

  lemma {:induction false} ProposalsRuns(ps: seq<Proposal>, vs: seq<Version>, removals: nat, runs: seq<Run>, runs': seq<Run>)
    requires ProposalsOk(ps, vs, removals, runs) && |runs| <= |runs'|
    requires forall i :: 0 <= i < |runs| ==> runs'[i].options == runs[i].options
    ensures ProposalsOk(ps, vs, removals, runs')
  {
    forall i | 0 <= i < |ps| ensures ProposalOk(ps[i], vs, removals, runs') {
      assert ProposalOk(ps[i], vs, removals, runs);
    }
  }

  lemma {:induction false} ReleasesRunUpdate(runs: seq<Run>, vs: seq<Version>, ps: seq<Proposal>, r: nat, run: Run)
    requires ReleasesOk(runs, vs, ps) && r < |runs| && Gentle(runs[r], run)
    ensures ReleasesOk(runs[r := run], vs, ps)
  {
  }

  lemma {:induction false} HeldRunUpdate(env: Env, vs: seq<Version>, runs: seq<Run>, staging: map<nat, seq<Rec>>, r: nat, run: Run)
    requires HeldOk(env, vs, runs, staging) && r < |runs| && Gentle(runs[r], run)
    ensures HeldOk(env, vs, runs[r := run], staging)
  {
  }

  lemma {:induction false} LogRuns(env: Env, log: seq<Publication>, vs: seq<Version>, runs: seq<Run>, runs': seq<Run>)
    requires LogLinked(env, log, vs, runs) && |runs| <= |runs'|
    requires forall i :: 0 <= i < |runs| && runs[i].status == Succeeded ==> runs'[i].status == Succeeded
    ensures LogLinked(env, log, vs, runs')
  {
  }

  lemma {:induction false} VersionsLinkedRunUpdate(vs: seq<Version>, runs: seq<Run>, r: nat, run: Run)
    requires VersionsLinked(vs, runs) && r < |runs| && Gentle(runs[r], run)
    requires run.status == Running || NoUnfinishedOf(vs, r)
    ensures VersionsLinked(vs, runs[r := run])
  {
  }

  lemma {:induction false} ArchiveUpdate(runs: seq<Run>, r: nat, run: Run, archive: set<Sha>, archive': set<Sha>)
    requires QueueOk(runs) && ArchiveOk(runs, archive) && r < |runs| && archive <= archive' && run.resumedFrom == runs[r].resumedFrom
    requires run.archived == runs[r].archived
             || (runs[r].archived == None && runs[r].status == Running && run.archived.Some? && run.archived.value in archive'
                 && (runs[r].resumedFrom.Some? && runs[r].resumedFrom.value < r && runs[runs[r].resumedFrom.value].archived.Some? ==>
                       run.archived == runs[runs[r].resumedFrom.value].archived))
    ensures ArchiveOk(runs[r := run], archive')
  {
    var runs' := runs[r := run];
    forall i | 0 <= i < |runs| && runs'[i].archived.Some? && runs'[i].resumedFrom.Some? && runs'[i].resumedFrom.value < i
               && runs'[runs'[i].resumedFrom.value].archived.Some?
      ensures runs'[i].archived == runs'[runs'[i].resumedFrom.value].archived
    {
      assert RunOk(runs, i);
      var p := runs[i].resumedFrom.value;
      assert runs[p].status == Abandoned;
    }
  }

  lemma {:induction false} RunAppendOk(env: Env, m: Machine, run: Run)
    requires TablesOk(env, m) && QueueOk(m.runs + [run]) && run.source == m.source && run.archived == None
    requires run.kind.ReleaseHeld? ==>
               && ReleaseApproved(m.store.proposals, run.kind.version)
               && run.kind.version < |m.store.versions| && m.store.versions[run.kind.version].status == Held
    ensures TablesOk(env, m.(runs := m.runs + [run]))
  {
    hide StoreOk, ProposalsOk, HeldOk, LogLinked, QueueOk;
    var st := m.store;
    ProposalsRuns(st.proposals, st.versions, |st.removals|, m.runs, m.runs + [run]);
    HeldRuns(env, st.versions, m.runs, m.staging, m.runs + [run]);
    LogRuns(env, st.log, st.versions, m.runs, m.runs + [run]);
    assert ArchiveOk(m.runs + [run], m.archive);
  }

  lemma {:induction false} HeldRuns(env: Env, vs: seq<Version>, runs: seq<Run>, staging: map<nat, seq<Rec>>, runs': seq<Run>)
    requires HeldOk(env, vs, runs, staging) && runs <= runs' && forall i :: 0 <= i < |vs| ==> vs[i].run < |runs|
    ensures HeldOk(env, vs, runs', staging)
  {
  }

  // ---------------------------------------------------------------------------------------------
  // Changes to versions
  // ---------------------------------------------------------------------------------------------

  lemma {:induction false} StoreVersionsOk(st: Store, vs: seq<Version>)
    requires StoreOk(st) && VersionsOk(vs, st.current) && |st.versions| <= |vs|
    ensures StoreOk(st.(versions := vs))
  {
    assert Pub(st.(versions := vs)) == Pub(st);
  }

  /** Moving one version on, short of publishing or holding it for release. */
  lemma {:induction false} VersionUpdateOk(env: Env, m: Machine, v: nat, ver: Version)
    requires TablesOk(env, m) && v < |m.store.versions|
    requires var old' := m.store.versions[v];
             && ver.seqNo == old'.seqNo && ver.run == old'.run && ver.sha == old'.sha && ver.reader == old'.reader
             && (Unfinished(old'.status) || (old'.status == Held && m.runs[old'.run].options.dryRun))
             && ver.status in {Validated, Held, Quarantined, Rejected}
             && (Unfinished(ver.status) ==> Unfinished(old'.status))
             && (ver.status == Held ==> m.runs[old'.run].options.dryRun && (m.store.current.Some? ==> m.store.current.value < v))
    ensures TablesOk(env, m.(store := m.store.(versions := m.store.versions[v := ver])))
  {
    assert m.store.versions[v].run < |m.runs| by {
      assert VersionsLinked(m.store.versions, m.runs);
    }
    hide QueueOk, StoreOk, ProposalsOk, ReleasesOk, LogLinked, ArchiveOk, VersionsLinked, HeldOk;
    var st, vs := m.store, m.store.versions[v := ver];
    VersionUpdateStore(st, v, ver);
    VersionUpdateLinks(env, st.versions, m.runs, m.staging, v, ver);
    ProposalsVersion(st.proposals, st.versions, |st.removals|, m.runs, v, ver);
    ReleasesVersion(m.runs, st.versions, st.proposals, |st.removals|, v, ver);
    LogVersions(env, st.log, st.versions, vs, m.runs);
  }

  lemma {:induction false} VersionUpdateStore(st: Store, v: nat, ver: Version)
    requires StoreOk(st) && v < |st.versions| && ver.seqNo == st.versions[v].seqNo
    requires Unfinished(st.versions[v].status) || st.versions[v].status == Held
    requires ver.status in {Validated, Held, Quarantined, Rejected}
    requires ver.status == Held && st.current.Some? ==> st.current.value < v
    ensures StoreOk(st.(versions := st.versions[v := ver]))
  {
    assert VersionsOk(st.versions[v := ver], st.current);
    hide RemovalsOk, Accounted, TimeTravel, RowsOk, LogOk;
    StoreVersionsOk(st, st.versions[v := ver]);
  }

  lemma {:induction false} VersionUpdateLinks(env: Env, vs: seq<Version>, runs: seq<Run>, staging: map<nat, seq<Rec>>, v: nat, ver: Version)
    requires VersionsLinked(vs, runs) && HeldOk(env, vs, runs, staging) && v < |vs|
    requires ver.run == vs[v].run && ver.sha == vs[v].sha && ver.reader == vs[v].reader
    requires Unfinished(ver.status) ==> Unfinished(vs[v].status)
    requires ver.status == Held ==> runs[vs[v].run].options.dryRun
    ensures VersionsLinked(vs[v := ver], runs) && HeldOk(env, vs[v := ver], runs, staging)
  {
    hide ContentOf;
  }

  lemma {:induction false} ProposalsVersion(ps: seq<Proposal>, vs: seq<Version>, removals: nat, runs: seq<Run>, v: nat, ver: Version)
    requires ProposalsOk(ps, vs, removals, runs) && v < |vs| && ver.run == vs[v].run
    requires vs[v].status == Held ==> vs[v].run < |runs| && runs[vs[v].run].options.dryRun
    requires Unfinished(ver.status) ==> Unfinished(vs[v].status)
    ensures ProposalsOk(ps, vs[v := ver], removals, runs)
  {
    forall i | 0 <= i < |ps| ensures ProposalOk(ps[i], vs[v := ver], removals, runs) {
      assert ProposalOk(ps[i], vs, removals, runs);
    }
  }

  /** An active release is never for a version of a dry run, so such a version may move. */
  lemma {:induction false} ReleasesVersion(runs: seq<Run>, vs: seq<Version>, ps: seq<Proposal>, removals: nat, v: nat, ver: Version)
    requires ReleasesOk(runs, vs, ps) && ProposalsOk(ps, vs, removals, runs) && v < |vs|
    requires vs[v].status == Held ==> vs[v].run < |runs| && runs[vs[v].run].options.dryRun
    ensures ReleasesOk(runs, vs[v := ver], ps)
  {
    forall r | 0 <= r < |runs| && runs[r].kind.ReleaseHeld? && Active(runs[r].status) ensures runs[r].kind.version != v {
      var p :| 0 <= p < |ps| && ps[p].subject == LargeChangeRelease(runs[r].kind.version) && ps[p].status == Applied;
      assert ProposalOk(ps[p], vs, removals, runs);
    }
  }

  lemma {:induction false} LogVersions(env: Env, log: seq<Publication>, vs: seq<Version>, vs': seq<Version>, runs: seq<Run>)
    requires LogLinked(env, log, vs, runs) && |vs| <= |vs'|
    requires forall i :: 0 <= i < |vs| ==>
               vs'[i].sha == vs[i].sha && vs'[i].reader == vs[i].reader && (PublishedOrSuperseded(vs[i].status) ==> vs'[i].status == vs[i].status)
    ensures LogLinked(env, log, vs', runs)
  {
  }

  lemma {:induction false} CloseVersionOk(env: Env, m: Machine, v: nat, status: VersionStatus)
    requires TablesOk(env, m) && status in {Rejected, Quarantined}
    ensures TablesOk(env, WithStore(m, CloseVersion(m.store, v, status)))
  {
    if v < |m.store.versions| && Unfinished(m.store.versions[v].status) {
      VersionUpdateOk(env, m, v, m.store.versions[v].(status := status));
    }
  }

  lemma {:induction false} MaxSeqIsLength(vs: seq<Version>)
    requires forall i :: 0 <= i < |vs| ==> vs[i].seqNo == i + 1
    ensures MaxSeq(vs) == |vs|
  {
    if vs != [] {
      MaxSeqIsLength(vs[..|vs| - 1]);
    }
  }

  lemma {:induction false} NewVersionOk(env: Env, m: Machine, ver: Version)
    requires TablesOk(env, m) && ver.seqNo == |m.store.versions| + 1 && ver.status == Candidate
    requires ver.run < |m.runs| && m.runs[ver.run].status == Running && m.runs[ver.run].kind == ListIngest
    requires NoVersionOf(m.store.versions, ver.run)
    ensures TablesOk(env, m.(store := m.store.(versions := m.store.versions + [ver])))
  {
    hide RemovalsOk, Accounted, TimeTravel, RowsOk, LogOk, ProposalsOk, LogLinked, ArchiveOk;
    var st, vs := m.store, m.store.versions + [ver];
    StoreVersionsOk(st, vs);
    assert RunOk(m.runs, ver.run);
    assert VersionsLinked(vs, m.runs);
    ProposalsNewVersion(st.proposals, st.versions, |st.removals|, m.runs, ver);
    assert ReleasesOk(m.runs, vs, st.proposals);
    assert HeldOk(env, vs, m.runs, m.staging);
    LogVersions(env, st.log, st.versions, vs, m.runs);
  }

  lemma {:induction false} ProposalsNewVersion(ps: seq<Proposal>, vs: seq<Version>, removals: nat, runs: seq<Run>, ver: Version)
    requires ProposalsOk(ps, vs, removals, runs)
    ensures ProposalsOk(ps, vs + [ver], removals, runs)
  {
    forall i | 0 <= i < |ps| ensures ProposalOk(ps[i], vs + [ver], removals, runs) {
      assert ProposalOk(ps[i], vs, removals, runs);
    }
  }

  // ---------------------------------------------------------------------------------------------
  // Staging
  // ---------------------------------------------------------------------------------------------

  lemma {:induction false} StagingOk(env: Env, m: Machine, r: nat, staging: map<nat, seq<Rec>>)
    requires TablesOk(env, m)
    requires forall k :: k != r ==> Staged(staging, k) == Staged(m.staging, k)
    requires forall i :: 0 <= i < |m.store.versions| && m.store.versions[i].run == r && m.store.versions[i].status == Held ==>
               m.runs[r].options.dryRun
    ensures TablesOk(env, m.(staging := staging))
  {
    hide StoreOk, QueueOk, ProposalsOk, ReleasesOk, LogLinked, ArchiveOk;
    assert HeldOk(env, m.store.versions, m.runs, staging);
  }

  /** A running run has no held version to protect, unless it is a dry run. */
  lemma {:induction false} RunningHoldsNothing(env: Env, m: Machine, r: nat)
    requires TablesOk(env, m) && r < |m.runs| && m.runs[r].status == Running
    ensures forall i :: 0 <= i < |m.store.versions| && m.store.versions[i].run == r && m.store.versions[i].status == Held ==>
              m.runs[r].options.dryRun
  {
    hide StoreOk, QueueOk, ProposalsOk, ReleasesOk, LogLinked, ArchiveOk;
  }

  // ---------------------------------------------------------------------------------------------
  // Publish
  // ---------------------------------------------------------------------------------------------

  /** The running run may publish version `v`: its own fresh one, or the held one its approval names. */
  ghost predicate Entitled(m: Machine, r: nat, v: nat) {
    && r < |m.runs| && m.runs[r].status == Running && v < |m.store.versions|
    && ((m.store.versions[v].run == r && m.store.versions[v].status == Validated)
        || (m.runs[r].kind == ReleaseHeld(v) && m.store.versions[v].status == Held))
  }

  lemma {:induction false} PublishVersionsLinked(vs: seq<Version>, runs: seq<Run>, v: nat, r: nat, who: Option<Actor>)
    requires VersionsLinked(vs, runs) && OneActive(runs) && v < |vs| && r < |runs| && runs[r].status == Running
    requires forall i :: 0 <= i < |runs| ==> runs[i].source == runs[r].source
    requires vs[v].run == r || runs[r].kind.ReleaseHeld?
    ensures VersionsLinked(PublishVersions(vs, v, who), runs[r := FinishRun(runs[r], Succeeded)])
  {
    var vs' := PublishVersions(vs, v, who);
    forall i | 0 <= i < |vs'| ensures !Unfinished(vs'[i].status) {
      assert Unfinished(vs[i].status) ==> Active(runs[vs[i].run].status);
    }
  }

  lemma {:induction false} PublishProposals(ps: seq<Proposal>, vs: seq<Version>, removals: nat, removals': nat, runs: seq<Run>, v: nat, who: Option<Actor>)
    requires ProposalsOk(ps, vs, removals, runs) && v < |vs| && removals <= removals'
    requires forall i :: 0 <= i < |ps| && ps[i].subject == LargeChangeRelease(v) ==> ps[i].status != Awaiting
    ensures ProposalsOk(ExpireProposals(ps, v), PublishVersions(vs, v, who), removals', runs)
  {
    var ps' := ExpireProposals(ps, v);
    forall i | 0 <= i < |ps'| ensures ProposalOk(ps'[i], PublishVersions(vs, v, who), removals', runs) {
      assert ProposalOk(ps[i], vs, removals, runs);
    }
  }

  /** A version about to be published has no release proposal still waiting. */
  lemma {:induction false} NothingAwaits(m: Machine, r: nat, v: nat)
    requires ProposalsOk(m.store.proposals, m.store.versions, |m.store.removals|, m.runs)
    requires ReleasesOk(m.runs, m.store.versions, m.store.proposals) && Entitled(m, r, v)
    ensures forall i :: 0 <= i < |m.store.proposals| && m.store.proposals[i].subject == LargeChangeRelease(v) ==>
              m.store.proposals[i].status != Awaiting
  {
    var ps := m.store.proposals;
    forall i | 0 <= i < |ps| && ps[i].subject == LargeChangeRelease(v) ensures ps[i].status != Awaiting {
      assert ProposalOk(ps[i], m.store.versions, |m.store.removals|, m.runs);
      if m.runs[r].kind == ReleaseHeld(v) {
        assert ReleaseApproved(ps, v);
        var p :| 0 <= p < |ps| && ps[p].subject == LargeChangeRelease(v) && ps[p].status == Applied;
        assert p == i;
      }
    }
  }

  lemma {:induction false} PublishReleases(runs: seq<Run>, vs: seq<Version>, ps: seq<Proposal>, v: nat, r: nat, who: Option<Actor>)
    requires ReleasesOk(runs, vs, ps) && OneActive(runs) && v < |vs| && r < |runs| && runs[r].status == Running
    requires forall i :: 0 <= i < |runs| ==> runs[i].source == runs[r].source
    ensures ReleasesOk(runs[r := FinishRun(runs[r], Succeeded)], PublishVersions(vs, v, who), ExpireProposals(ps, v))
  {
    var runs' := runs[r := FinishRun(runs[r], Succeeded)];
    forall q | 0 <= q < |runs'| && runs'[q].kind.ReleaseHeld?
      ensures ReleaseApproved(ExpireProposals(ps, v), runs'[q].kind.version) && !Active(runs'[q].status)
    {
      assert ReleaseApproved(ps, runs[q].kind.version);
      var p :| 0 <= p < |ps| && ps[p].subject == LargeChangeRelease(runs[q].kind.version) && ps[p].status == Applied;
      assert ExpireProposals(ps, v)[p] == ps[p];
    }
  }

  lemma {:induction false} PublishHeldKeeps(env: Env, vs: seq<Version>, runs: seq<Run>, staging: map<nat, seq<Rec>>, v: nat, r: nat, who: Option<Actor>)
    requires HeldOk(env, vs, runs, staging) && v < |vs| && r < |runs| && runs[r].status == Running
    ensures HeldOk(env, PublishVersions(vs, v, who), runs[r := FinishRun(runs[r], Succeeded)], staging)
  {
  }

  lemma {:induction false} PublishLog(env: Env, log: seq<Publication>, vs: seq<Version>, runs: seq<Run>, v: nat, r: nat, who: Option<Actor>)
    requires LogLinked(env, log, vs, runs) && v < |vs| && vs[v].seqNo == v + 1 && r < |runs| && runs[r].status == Running
    ensures LogLinked(env, log + [Publication(v + 1, AsMap(ContentOf(env, vs[v])), r)], PublishVersions(vs, v, who),
                      runs[r := FinishRun(runs[r], Succeeded)])
  {
  }

  lemma {:induction false} PublishStoreAndRuns(env: Env, m: Machine, r: nat, v: nat, who: Option<Actor>)
    requires TablesOk(env, m) && Entitled(m, r, v) && Publishable(m.store, v)
    ensures var runs' := m.runs[r := FinishRun(m.runs[r], Succeeded)];
            && StoreOk(PublishEffect(m.store, v, ContentOf(env, m.store.versions[v]), r, who))
            && QueueOk(runs') && ArchiveOk(runs', m.archive)
            && VersionsLinked(PublishVersions(m.store.versions, v, who), runs')
  {
    assert OneActive(m.runs) && OneSource(m.runs, m.source);
    assert RunOk(m.runs, r);
    hide StoreOk, VersionsLinked, ProposalsOk, ReleasesOk, HeldOk, LogLinked, ArchiveOk, PublishEffect, FirstByKey;
    var run := FinishRun(m.runs[r], Succeeded);
    UpdateKeepsQueueOk(m.runs, r, run);
    FirstByKeyDistinct(env.records(m.store.versions[v].reader, m.store.versions[v].sha));
    PublishKeepsStoreOk(m.store, v, ContentOf(env, m.store.versions[v]), r, who);
    PublishVersionsLinked(m.store.versions, m.runs, v, r, who);
    ArchiveUpdate(m.runs, r, run, m.archive, m.archive);
  }

  lemma {:induction false} PublishReview(env: Env, m: Machine, r: nat, v: nat, removals: nat, who: Option<Actor>)
    requires TablesOk(env, m) && Entitled(m, r, v) && |m.store.removals| <= removals
    ensures var runs', vs' := m.runs[r := FinishRun(m.runs[r], Succeeded)], PublishVersions(m.store.versions, v, who);
            && ProposalsOk(ExpireProposals(m.store.proposals, v), vs', removals, runs')
            && ReleasesOk(runs', vs', ExpireProposals(m.store.proposals, v))
            && HeldOk(env, vs', runs', m.staging)
  {
    var st, runs' := m.store, m.runs[r := FinishRun(m.runs[r], Succeeded)];
    assert OneActive(m.runs) && OneSource(m.runs, m.source);
    hide StoreOk, QueueOk, VersionsLinked, ProposalsOk, ReleasesOk, HeldOk, LogLinked, ArchiveOk, OneActive;
    NothingAwaits(m, r, v);
    PublishProposals(st.proposals, st.versions, |st.removals|, removals, m.runs, v, who);
    ProposalsRuns(ExpireProposals(st.proposals, v), PublishVersions(st.versions, v, who), removals, m.runs, runs');
    PublishReleases(m.runs, st.versions, st.proposals, v, r, who);
    PublishHeldKeeps(env, st.versions, m.runs, m.staging, v, r, who);
  }

  /** The publish transaction: the version goes live and its run succeeds, together. */
  lemma {:induction false} PublishKeepsTablesOk(env: Env, m: Machine, r: nat, v: nat, who: Option<Actor>)
    requires TablesOk(env, m) && Entitled(m, r, v) && Publishable(m.store, v)
    ensures TablesOk(env, m.(store := PublishEffect(m.store, v, ContentOf(env, m.store.versions[v]), r, who),
                             runs := m.runs[r := FinishRun(m.runs[r], Succeeded)]))
  {
    var st := m.store;
    var st' := PublishEffect(st, v, ContentOf(env, st.versions[v]), r, who);
    assert st.versions[v].seqNo == v + 1;
    assert |st.removals| <= |st'.removals|;
    hide StoreOk, QueueOk, VersionsLinked, ProposalsOk, ReleasesOk, HeldOk, LogLinked, ArchiveOk;
    hide PublishRows, NextRemovals, CrosslistOf, AsMap, FirstByKey;
    PublishStoreAndRuns(env, m, r, v, who);
    PublishReview(env, m, r, v, |st'.removals|, who);
    PublishLog(env, st.log, st.versions, m.runs, v, r, who);
  }
}
