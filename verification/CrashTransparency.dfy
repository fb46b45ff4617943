/**
 Crash transparency: once a run has archived its file, crashes and resumptions do not change how it ends. The
 checkpointed machine behaves like one atomic ingest of the archived bytes, for every placement of crashes; the one
 thing an attempt knows and its successor does not is whether the publisher's response dated the file.
 */
module CrashTransparency {
  import opened Base
  import opened Canonical
  import opened Scd2
  import opened ListStore
  import opened ListStoreProofs
  import opened Staging
  import opened RunQueue
  import opened Pipeline
  import opened PipelineInvariant
  import opened PipelineSteps
  import opened PipelineTheorems
  import V = Validation

  /**
   An ingest at the moment its first attempt archived `sha`: the data then live, the terms of the run, how many
   attempts its chain has used, and whether the response dated the file.
   */
  datatype Job = Job(st: Store, cfg: Settings, options: Options, root: nat, attempt: nat, sha: Sha, header: bool)

  datatype Ending = Ending(status: RunStatus, listing: Listing)

  function ContentOfJob(env: Env, job: Job): seq<Rec> { Content(env, job.cfg.reader, job.sha) }

  function VerdictOnJob(env: Env, job: Job): V.Verdict {
    VerdictOn(env, job.cfg, job.sha, Open(job.st.rows), ContentOfJob(env, job))
  }

  predicate FileGoodFor(env: Env, job: Job, header: bool) { FileGood(env, job.cfg, job.st, job.sha, header) }

  /** The archived bytes do not get past the checks. */
  predicate Rejects(env: Env, job: Job, header: bool) {
    !FileGoodFor(env, job, header) || !env.parses(job.cfg.reader, job.sha) || VerdictOnJob(env, job).Quarantine?
  }

  /**
   The atomic ingest: how the run ends and what is listed and held then, as a function of the archived bytes and the
   listing before. `header` says whether the attempt that ends the job has a date from the response.
   */
  function FateOn(env: Env, job: Job, header: bool, l: Listing): Ending {
    if Rejects(env, job, header) then Ending(RunQuarantined, l)
    else if job.options.dryRun then Ending(DryRunOk, l)
    else if VerdictOnJob(env, job) == V.Hold then Ending(RunHeld, l)
    else Ending(Succeeded, Ingest(l, AsMap(ContentOfJob(env, job))))
  }

  /** How the job ends when nothing interrupts it. */
  function Fate(env: Env, job: Job, l: Listing): Ending { FateOn(env, job, job.header, l) }

  /**
   The marker the gate requires is known from the response of the first attempt only, and the chain allows another
   attempt, which would not have it.
   */
  predicate LosesHeader(env: Env, job: Job) {
    && job.cfg.gate.requireMarker && !env.marker(job.cfg.reader, job.sha)
    && job.header && job.attempt <= MAX_RESUMES
  }

  /** Whether the attempt `t` of the job has the response at hand. */
  predicate Seen(job: Job, t: int) { t == job.root && job.header }

  function Tip(m: Machine): int { |m.runs| - 1 }

  /** What the worker remembers agrees with the atomic ingest. */
  predicate PhaseFits(env: Env, job: Job, header: bool, p: Phase) {
    match p
    case Fetching => true
    case Archived(s, h) => s == job.sha && h == header
    case FileRejected(s, _) => s == job.sha && !FileGoodFor(env, job, header)
    case FileChecked(s, _) => s == job.sha && FileGoodFor(env, job, header)
    case Parsing(s, _, _) => s == job.sha && FileGoodFor(env, job, header)
    case Parsed(s, _) => s == job.sha && FileGoodFor(env, job, header) && env.parses(job.cfg.reader, s)
    case Decided(s, _, hold) =>
      && s == job.sha && FileGoodFor(env, job, header) && env.parses(job.cfg.reader, s)
      && VerdictOnJob(env, job) == (if hold then V.Hold else V.Pass)
    case Releasing => false
  }

  /** The published rows, and the date the file is compared with, are as they were when the file was archived. */
  ghost predicate DataStill(st0: Store, st: Store) {
    st.rows == st0.rows && (forall s :: Regressed(st, s) <==> Regressed(st0, s))
  }

  /** The newest run continues the job, with the archived bytes at hand. */
  ghost predicate TipFits(job: Job, runs: seq<Run>) {
    && runs != []
    && var t := |runs| - 1;
    && Active(runs[t].status) && job.root <= t && InChain(runs, job.root, t) && runs[t].kind == ListIngest && runs[t].options == job.options
    && runs[job.root].attempt == job.attempt && (t == job.root ==> runs[t].archived == Some(job.sha))
    && (runs[t].archived == Some(job.sha) || (runs[t].archived == None && Checkpoint(runs, runs[t]) == Some(job.sha)))
  }

  ghost predicate WorkerFits(env: Env, job: Job, m: Machine) {
    m.worker.Some? ==>
      && m.worker.value.run == Tip(m) && m.worker.value.cfg == job.cfg
      && PhaseFits(env, job, Seen(job, Tip(m)), m.worker.value.phase)
  }

  ghost predicate InFlight(env: Env, job: Job, m: Machine) {
    TipFits(job, m.runs) && WorkerFits(env, job, m) && m.cfg == job.cfg && DataStill(job.st, m.store)
  }

  predicate Completed(s: RunStatus) { s in {Succeeded, RunHeld, RunQuarantined, DryRunOk} }

  /** The job is over: as the atomic ingest of the listing just before, or given up with nothing changed. */
  ghost predicate Ended(env: Env, job: Job, m: Machine, m': Machine) {
    && m'.worker.None? && m.runs != [] && |m'.runs| == |m.runs|
    && var status := m'.runs[Tip(m)].status;
    && (Completed(status) ==> Ending(status, ListingOf(m'.store)) == FateOn(env, job, Seen(job, Tip(m)), ListingOf(m.store)))
    && (!Completed(status) ==> status in {Failed, Cancelled, Abandoned} && ListingOf(m'.store) == ListingOf(m.store))
  }

  /**
   The configuration stays, no write to staging fails, and an attempt is abandoned only once it has archived (a re-parse
   names its bytes in its options, so it may be abandoned at any time). Everything else may happen, removal decisions
   included.
   */
  predicate Undisturbed(job: Job, m: Machine, e: Event) {
    && !e.SetConfig? && !e.StagingFailed?
    && (e.ReclaimRun? && e.run < |m.runs| ==> m.runs[e.run].archived.Some? || job.options.reparse == Some(job.sha))
  }

  // ---------------------------------------------------------------------------------------------
  // Frames
  // ---------------------------------------------------------------------------------------------

  lemma {:induction false} RegressedSame(st: Store, st': Store, s: Option<int>)
    requires VersionsOk(st.versions, st.current) && VersionsOk(st'.versions, st'.current) && SamePublished(st, st')
    ensures Regressed(st', s) <==> Regressed(st, s)
  {
    if Regressed(st', s) {
      var i :| 0 <= i < |st'.versions| && st'.versions[i].status == Published
               && st'.versions[i].stamp.Some? && s.Some? && s.value < st'.versions[i].stamp.value;
      assert st.current == Some(i);
      assert st.versions[i].status == Published;
    }
    if Regressed(st, s) {
      var i :| 0 <= i < |st.versions| && st.versions[i].status == Published
               && st.versions[i].stamp.Some? && s.Some? && s.value < st.versions[i].stamp.value;
      assert st'.versions[i].status == Published;
    }
  }

  /** A step that does not publish leaves the data as they were; unless it decides a removal, the holds too. */
  lemma {:induction false} StillStill(env: Env, job: Job, m: Machine, e: Event)
    requires MachineOk(env, m) && DataStill(job.st, m.store) && !Publishes(m, e)
    ensures DataStill(job.st, Step(env, m, e).store)
    ensures !Resolves(m, e) ==> ListingOf(Step(env, m, e).store) == ListingOf(m.store)
  {
    hide MachineOk, Step, DataStill, ListingOf, Publishes, Resolves;
    if Resolves(m, e) {
      ResolvingStill(env, job, m, e);
    } else {
      QuietStill(env, job, m, e);
    }
  }

  lemma {:induction false} ResolvingStill(env: Env, job: Job, m: Machine, e: Event)
    requires DataStill(job.st, m.store) && Resolves(m, e)
    ensures DataStill(job.st, Step(env, m, e).store)
  {
    ResolveShape(env, m, e);
    hide Step, Resolves, Regressed, Resolve;
    SameVersionsSameDate(m.store, Step(env, m, e).store);
  }

  lemma {:induction false} PublishedIsCurrent(env: Env, m: Machine)
    requires MachineOk(env, m)
    ensures VersionsOk(m.store.versions, m.store.current)
  {
    hide VersionsOk;
  }

  lemma {:induction false} QuietStill(env: Env, job: Job, m: Machine, e: Event)
    requires MachineOk(env, m) && DataStill(job.st, m.store) && !Publishes(m, e) && !Resolves(m, e)
    ensures DataStill(job.st, Step(env, m, e).store) && ListingOf(Step(env, m, e).store) == ListingOf(m.store)
  {
    hide MachineOk, Step, ListingOf, Publishes, Resolves, VersionsOk, Regressed;
    var st, st' := m.store, Step(env, m, e).store;
    StepKeepsMachineOk(env, m, e);
    PublishedIsCurrent(env, m);
    PublishedIsCurrent(env, Step(env, m, e));
    QuietStep(env, m, e);
    forall s ensures Regressed(st', s) <==> Regressed(job.st, s) {
      RegressedSame(st, st', s);
    }
  }

  lemma {:induction false} SameVersionsSameDate(st: Store, st': Store)
    requires st'.versions == st.versions
    ensures forall s :: Regressed(st', s) <==> Regressed(st, s)
  {
  }

  lemma {:induction false} InChainFrame(runs: seq<Run>, runs': seq<Run>, a: nat, r: nat)
    requires r < |runs| && r < |runs'| && forall i :: 0 <= i <= r ==> runs'[i].resumedFrom == runs[i].resumedFrom
    requires InChain(runs, a, r)
    ensures InChain(runs', a, r)
    decreases r
  {
    if a != r {
      InChainFrame(runs, runs', a, runs[r].resumedFrom.value);
    }
  }

  /** A change to one run that neither ends the newest one nor touches anybody's checkpoint. */
  lemma {:induction false} TipRowUpdate(job: Job, runs: seq<Run>, r: nat, run: Run)
    requires TipFits(job, runs) && r < |runs| && run.resumedFrom == runs[r].resumedFrom
    requires run.archived == runs[r].archived && run.kind == runs[r].kind && run.options == runs[r].options
    requires run.attempt == runs[r].attempt
    requires r == |runs| - 1 ==> Active(run.status)
    ensures TipFits(job, runs[r := run])
  {
    InChainFrame(runs, runs[r := run], job.root, |runs| - 1);
  }

  /** The newest run reaches its checkpoint. */
  lemma {:induction false} TipArchives(job: Job, runs: seq<Run>)
    requires TipFits(job, runs)
    ensures TipFits(job, runs[|runs| - 1 := runs[|runs| - 1].(archived := Some(job.sha))])
  {
    InChainFrame(runs, runs[|runs| - 1 := runs[|runs| - 1].(archived := Some(job.sha))], job.root, |runs| - 1);
  }

  /** The newest run was abandoned and resumed. */
  lemma {:induction false} TipResumes(job: Job, runs: seq<Run>, now: int)
    requires TipFits(job, runs)
    requires runs[|runs| - 1].archived.Some? || job.options.reparse == Some(job.sha)
    ensures var t := |runs| - 1;
            TipFits(job, runs[t := runs[t].(status := Abandoned)] + [ResumeOf(runs[t], t, now)])
  {
    var t := |runs| - 1;
    var runs' := runs[t := runs[t].(status := Abandoned)] + [ResumeOf(runs[t], t, now)];
    InChainFrame(runs, runs', job.root, t);
    assert InChain(runs', job.root, t + 1);
  }

  lemma {:induction false} OnlyTipActive(env: Env, job: Job, m: Machine)
    requires MachineOk(env, m) && InFlight(env, job, m)
    ensures Busy(m.runs, m.source) && Active(m.runs[Tip(m)].status) && m.runs[Tip(m)].kind == ListIngest
    ensures forall r :: 0 <= r < |m.runs| && Active(m.runs[r].status) ==> r == Tip(m)
  {
    hide *;
    OneActiveRun(env, m);
    TipActive(env, job, m);
    OnlyActive(m.runs, m.source, Tip(m));
  }

  lemma {:induction false} OneActiveRun(env: Env, m: Machine)
    requires MachineOk(env, m)
    ensures OneActive(m.runs) && OneSource(m.runs, m.source)
  {
    hide StoreOk, Linear, VersionsLinked, ProposalsOk, ReleasesOk, HeldOk, LogLinked, ArchiveOk, FreshQueued, WorkerOk, OneActive, OneSource;
  }

  lemma {:induction false} OnlyActive(runs: seq<Run>, source: SourceId, t: nat)
    requires OneActive(runs) && OneSource(runs, source) && t < |runs| && Active(runs[t].status)
    ensures Busy(runs, source) && forall r :: 0 <= r < |runs| && Active(runs[r].status) ==> r == t
  {
    assert ActiveFor(runs[t], source);
  }

  lemma {:induction false} TipActive(env: Env, job: Job, m: Machine)
    requires InFlight(env, job, m)
    ensures 0 <= Tip(m) && Tip(m) == |m.runs| - 1 && Active(m.runs[Tip(m)].status) && m.runs[Tip(m)].kind == ListIngest
  {
    hide InChain, DataStill, WorkerFits;
  }

  // ---------------------------------------------------------------------------------------------
  // One step
  // ---------------------------------------------------------------------------------------------

  lemma {:induction false} WorkerRuns(env: Env, m: Machine)
    requires MachineOk(env, m) && m.worker.Some?
    ensures Working(m) && Me(m).status == Running
  {
    hide TablesOk, PhaseOk;
  }

  /** A change to one run row leaves the job in flight, unless it closes the newest run. */
  lemma {:induction false} RowStepInFlight(env: Env, job: Job, m: Machine, m': Machine, q: nat, run: Run)
    requires InFlight(env, job, m) && q < |m.runs| && m' == m.(runs := m.runs[q := run])
    requires run.resumedFrom == m.runs[q].resumedFrom && run.archived == m.runs[q].archived && run.kind == m.runs[q].kind
    requires run.options == m.runs[q].options && run.attempt == m.runs[q].attempt && (Active(m.runs[q].status) ==> Active(run.status))
    ensures InFlight(env, job, m')
  {
    assert q == |m.runs| - 1 ==> Active(m.runs[q].status);
    hide TipFits, DataStill, PhaseFits;
    TipRowUpdate(job, m.runs, q, run);
  }

  lemma {:induction false} ClaimInFlight(env: Env, job: Job, m: Machine, q: nat, worker: Actor, now: int, lease: nat)
    requires MachineOk(env, m) && InFlight(env, job, m)
    ensures InFlight(env, job, Step(env, m, Claim(q, worker, now, lease)))
  {
    hide *;
    if q < |m.runs| && Claimable(m.runs[q], now) {
      OnlyTipActive(env, job, m);
      QueuedIsActive(m.runs[q], now);
      ClaimedFits(env, job, m, q, worker, now, lease);
    } else {
      NothingClaimed(env, m, q, worker, now, lease);
    }
  }

  lemma {:induction false} QueuedIsActive(r: Run, now: int)
    requires Claimable(r, now)
    ensures Active(r.status)
  {
  }

  lemma {:induction false} ClaimedFits(env: Env, job: Job, m: Machine, q: nat, worker: Actor, now: int, lease: nat)
    requires InFlight(env, job, m) && q == Tip(m) && m.runs[q].kind == ListIngest && Claimable(m.runs[q], now)
    ensures InFlight(env, job, Step(env, m, Claim(q, worker, now, lease)))
  {
    hide TipFits, DataStill;
    TipRowUpdate(job, m.runs, q, ClaimRun(m.runs[q], worker, now, lease));
  }

  lemma {:induction false} NothingClaimed(env: Env, m: Machine, q: nat, worker: Actor, now: int, lease: nat)
    requires !(q < |m.runs| && Claimable(m.runs[q], now))
    ensures Step(env, m, Claim(q, worker, now, lease)) == m
  {
  }

  /** Withdrawing the queued attempt gives the job up. */
  lemma {:induction false} CancelInFlight(env: Env, job: Job, m: Machine, q: nat)
    requires MachineOk(env, m) && InFlight(env, job, m)
    ensures InFlight(env, job, Step(env, m, RequestCancel(q))) || Ended(env, job, m, Step(env, m, RequestCancel(q)))
  {
    hide MachineOk, InFlight, Step, Ended;
    CancelIsRow(env, m, q);
    if q < |m.runs| {
      if m.runs[q].status == Queued {
        OnlyTipActive(env, job, m);
        NobodyAtWork(env, job, m);
        Withdrawn(env, job, m, q);
      } else {
        RowStepInFlight(env, job, m, Step(env, m, RequestCancel(q)), q, CancelRun(m.runs[q]));
      }
    }
  }

  lemma {:induction false} CancelIsRow(env: Env, m: Machine, q: nat)
    ensures Step(env, m, RequestCancel(q)) == if q < |m.runs| then m.(runs := m.runs[q := CancelRun(m.runs[q])]) else m
  {
  }

  /** While the newest attempt is still queued nobody is at work. */
  lemma {:induction false} NobodyAtWork(env: Env, job: Job, m: Machine)
    requires MachineOk(env, m) && InFlight(env, job, m) && 0 <= Tip(m) && m.runs[Tip(m)].status == Queued
    ensures m.worker.None?
  {
    if m.worker.Some? {
      WorkerRuns(env, m);
      WorkerHolds(env, job, m);
    }
    hide MachineOk, InFlight;
  }

  lemma {:induction false} Withdrawn(env: Env, job: Job, m: Machine, q: nat)
    requires q == |m.runs| - 1 && m.runs[q].status == Queued && m.worker.None?
    ensures Ended(env, job, m, Step(env, m, RequestCancel(q)))
  {
    hide FateOn, ListingOf;
  }

  /** The other transactions touch neither the job's runs nor its worker. */
  lemma {:induction false} OtherTableStep(env: Env, job: Job, m: Machine, e: Event)
    requires MachineOk(env, m) && InFlight(env, job, m) && Undisturbed(job, m, e) && !OfWorker(e)
    requires !e.ReclaimRun? && !e.Claim? && !e.Heartbeat? && !e.RequestCancel?
    ensures InFlight(env, job, Step(env, m, e))
  {
    StillTable(env, job, m, e);
    OnlyTipActive(env, job, m);
    RunsUntouched(env, m, e);
    hide MachineOk, DataStill, TipFits, PhaseFits, Step;
  }

  /** While the source is busy nothing but its queue operations touches the runs. */
  lemma {:induction false} RunsUntouched(env: Env, m: Machine, e: Event)
    requires Busy(m.runs, m.source) && !OfWorker(e)
    requires !e.ReclaimRun? && !e.Claim? && !e.Heartbeat? && !e.RequestCancel?
    ensures var m' := Step(env, m, e); m'.runs == m.runs && m'.worker == m.worker && (!e.SetConfig? ==> m'.cfg == m.cfg)
  {
    hide Busy, HoldsVersion, Assess, Resolve, CloseProposal;
  }

  lemma {:induction false} StillTable(env: Env, job: Job, m: Machine, e: Event)
    requires MachineOk(env, m) && InFlight(env, job, m) && !OfWorker(e)
    ensures DataStill(job.st, Step(env, m, e).store)
  {
    hide MachineOk, Step, DataStill, TipFits, WorkerFits;
    StillStill(env, job, m, e);
  }

  lemma {:induction false} TableStepInFlight(env: Env, job: Job, m: Machine, e: Event)
    requires MachineOk(env, m) && InFlight(env, job, m) && Undisturbed(job, m, e) && !OfWorker(e) && !e.ReclaimRun?
    ensures InFlight(env, job, Step(env, m, e)) || Ended(env, job, m, Step(env, m, e))
  {
    hide MachineOk, InFlight, Ended;
    match e {
      case Claim(q, worker, now, lease) => ClaimInFlight(env, job, m, q, worker, now, lease);
      case Heartbeat(q, worker, now, lease) =>
        if q < |m.runs| {
          RowStepInFlight(env, job, m, Step(env, m, e), q, BeatRun(m.runs[q], worker, now, lease));
        }
      case RequestCancel(q) => CancelInFlight(env, job, m, q);
      case _ =>
        hide Step;
        OtherTableStep(env, job, m, e);
    }
  }

  /**
   What a resumption starts from: the abandoned attempt's archived bytes, else the bytes a re-parse names. With
   neither it fetches afresh, so an attempt abandoned before it archived is not covered by the theorem below.
   */
  lemma {:induction false} ResumptionStartsFrom(runs: seq<Run>, r: nat, active: bool, now: int)
    requires QueueOk(runs) && r < |runs| && runs[r].status == Running && runs[r].attempt <= MAX_RESUMES && active
    ensures var runs' := Reclaim(runs, r, active, now);
            && |runs'| == |runs| + 1
            && Checkpoint(runs', runs'[|runs|]) == if runs[r].archived.Some? then runs[r].archived else runs[r].options.reparse
  {
    ReclaimResumesIff(runs, r, active, now);
  }

  /** Abandoning the newest run resumes the job or gives it up. */
  lemma {:induction false} ReclaimTip(job: Job, runs: seq<Run>, active: bool, now: int)
    requires QueueOk(runs) && TipFits(job, runs) && runs[|runs| - 1].status == Running
    requires runs[|runs| - 1].archived.Some? || job.options.reparse == Some(job.sha)
    ensures var runs' := Reclaim(runs, |runs| - 1, active, now);
            TipFits(job, runs') || (|runs'| == |runs| && runs'[|runs| - 1].status == Abandoned)
  {
    var r := |runs| - 1;
    var runs' := Reclaim(runs, r, active, now);
    ReclaimResumesIff(runs, r, active, now);
    TipResumes(job, runs, now);
    hide QueueOk, TipFits;
    if |runs'| == |runs| + 1 {
      assert runs' == runs[r := runs[r].(status := Abandoned)] + [ResumeOf(runs[r], r, now)];
    }
  }

  lemma {:induction false} QueueIsOk(env: Env, m: Machine)
    requires MachineOk(env, m)
    ensures QueueOk(m.runs)
  {
    hide QueueOk;
  }

  lemma {:induction false} ReclaimInFlight(env: Env, job: Job, m: Machine, r: nat, now: int)
    requires MachineOk(env, m) && InFlight(env, job, m) && Undisturbed(job, m, ReclaimRun(r, now))
    ensures InFlight(env, job, Step(env, m, ReclaimRun(r, now))) || Ended(env, job, m, Step(env, m, ReclaimRun(r, now)))
  {
    hide MachineOk, DataStill, TipFits, FateOn, ListingOf, Reclaim, RejectVersionsOf, PhaseFits, QueueOk;
    StillStill(env, job, m, ReclaimRun(r, now));
    if r < |m.runs| && LeaseExpired(m.runs[r], now) && m.worker.None? {
      OnlyTipActive(env, job, m);
      QueueIsOk(env, m);
      ReclaimTip(job, m.runs, m.active, now);
    }
  }

  /** The worker of a job holds the job's bytes, or is about to reuse them; what it has staged is theirs. */
  lemma {:induction false} WorkerHolds(env: Env, job: Job, m: Machine)
    requires MachineOk(env, m) && InFlight(env, job, m) && Working(m)
    ensures m.worker.value.run == Tip(m) && m.worker.value.cfg == job.cfg
    ensures m.worker.value.phase.Fetching? ==> Checkpoint(m.runs, Me(m)) == Some(job.sha) && Tip(m) != job.root
    ensures m.worker.value.phase.Parsed? ==> StagedOf(m, m.worker.value.run) == ContentOfJob(env, job)
    ensures !m.worker.value.phase.Fetching? ==> Me(m).archived == Some(job.sha)
    ensures Me(m).options == job.options && Me(m).status == Running
    ensures PhaseFits(env, job, Seen(job, Tip(m)), m.worker.value.phase)
    ensures m.worker.value.phase.Decided? && m.worker.value.phase.hold ==> job.options.dryRun
  {
    hide TablesOk, VerdictOn, FirstByKey, DataStill, InChain;
  }

  /** The job moves on to another phase. */
  lemma {:induction false} MovesOn(env: Env, job: Job, m: Machine, m': Machine)
    requires InFlight(env, job, m) && m'.runs == m.runs && m'.cfg == m.cfg && DataStill(job.st, m'.store)
    requires m'.worker.Some? ==>
               && m'.worker.value.run == Tip(m) && m'.worker.value.cfg == job.cfg
               && PhaseFits(env, job, Seen(job, Tip(m)), m'.worker.value.phase)
    ensures InFlight(env, job, m')
  {
    hide TipFits, DataStill, PhaseFits;
  }

  lemma {:induction false} ReuseInFlight(env: Env, job: Job, m: Machine)
    requires MachineOk(env, m) && InFlight(env, job, m) && Working(m) && m.worker.value.phase.Fetching?
    ensures InFlight(env, job, Step(env, m, ReuseArchive)) || Ended(env, job, m, Step(env, m, ReuseArchive))
  {
    hide MachineOk, DataStill, Checkpoint, FateOn, ListingOf, FileGood, VerdictOn;
    WorkerHolds(env, job, m);
    hide TipFits;
    TipArchives(job, m.runs);
  }

  lemma {:induction false} SameFileGood(env: Env, job: Job, m: Machine, header: bool)
    requires InFlight(env, job, m)
    ensures FileGood(env, job.cfg, m.store, job.sha, header) <==> FileGoodFor(env, job, header)
  {
    var s := env.stamp(job.cfg.reader, job.sha);
    assert Regressed(m.store, s) <==> Regressed(job.st, s);
    hide Regressed;
  }

  lemma {:induction false} ValidateFileInFlight(env: Env, job: Job, m: Machine)
    requires MachineOk(env, m) && InFlight(env, job, m) && Working(m) && m.worker.value.phase.Archived?
    requires DataStill(job.st, Step(env, m, ValidateFile).store)
    ensures InFlight(env, job, Step(env, m, ValidateFile))
  {
    hide MachineOk, DataStill, Regressed, MaxSeq, InFlight, VerdictOnJob, Content, Open, FileGood, FileGoodFor;
    WorkerHolds(env, job, m);
    SameFileGood(env, job, m, m.worker.value.phase.header);
    MovesOn(env, job, m, Step(env, m, ValidateFile));
  }

  /** The verdict the job reaches is the one the atomic ingest reaches. */
  lemma {:induction false} SameVerdict(env: Env, job: Job, m: Machine)
    requires MachineOk(env, m) && InFlight(env, job, m) && Working(m) && m.worker.value.phase.Parsed?
    ensures var w := m.worker.value;
            && w.run == Tip(m) && w.phase.sha == job.sha && FileGoodFor(env, job, Seen(job, Tip(m)))
            && env.parses(job.cfg.reader, job.sha)
            && w.phase.version < |m.store.versions| && Me(m).options == job.options
            && VerdictOn(env, w.cfg, w.phase.sha, Open(m.store.rows), StagedOf(m, w.run)) == VerdictOnJob(env, job)
  {
    WorkerHolds(env, job, m);
    ParsedFacts(env, m);
    hide MachineOk, TipFits, VerdictOn, ContentOfJob, Open, FileGoodFor;
  }

  lemma {:induction false} VerdictInFlight(env: Env, job: Job, m: Machine)
    requires MachineOk(env, m) && InFlight(env, job, m) && Working(m) && m.worker.value.phase.Parsed?
    requires DataStill(job.st, Step(env, m, ValidateRecords).store)
    requires ListingOf(Step(env, m, ValidateRecords).store) == ListingOf(m.store)
    ensures InFlight(env, job, Step(env, m, ValidateRecords)) || Ended(env, job, m, Step(env, m, ValidateRecords))
  {
    hide MachineOk, InFlight, DataStill, VerdictOn, VerdictOnJob, Open, FileGoodFor, ListingOf;
    SameVerdict(env, job, m);
    var m' := Step(env, m, ValidateRecords);
    var verdict := VerdictOnJob(env, job);
    if verdict.Quarantine? || (verdict.Hold? && !job.options.dryRun) {
      assert Ended(env, job, m, m');
    } else {
      WorkerHolds(env, job, m);
      MovesOn(env, job, m, m');
    }
  }

  lemma {:induction false} PublishesTheJob(env: Env, job: Job, m: Machine)
    requires MachineOk(env, m) && InFlight(env, job, m) && Publishes(m, DiffPublish)
    ensures var m' := Step(env, m, DiffPublish);
            && m'.worker.None? && |m'.runs| == |m.runs| && m'.runs[Tip(m)].status == Succeeded
            && ListingOf(m'.store) == Ingest(ListingOf(m.store), AsMap(ContentOfJob(env, job)))
  {
    hide MachineOk, InFlight, Content, Open, FileGoodFor, ListingOf, VerdictOnJob, PublishEffect, Publishable, HoldingKeys, Step, Ingest, AsMap;
    WorkerHolds(env, job, m);
    DecidedFacts(env, m);
    OwnIsOfJob(env, m);
    assert ContentOf(env, m.store.versions[PublishedVersion(m)]) == ContentOfJob(env, job);
    hide PhaseFits, ContentOf, ContentOfJob;
    PublishStep(env, m, DiffPublish);
  }

  lemma {:induction false} OwnIsOfJob(env: Env, m: Machine)
    requires MachineOk(env, m) && Working(m) && m.worker.value.phase.Decided?
    ensures PublishedVersion(m) < |m.store.versions|
    ensures m.store.versions[PublishedVersion(m)].sha == m.worker.value.phase.sha
    ensures m.store.versions[PublishedVersion(m)].reader == m.worker.value.cfg.reader
  {
    hide TablesOk, VerdictOn, FirstByKey, Open;
  }

  lemma {:induction false} PublishInFlight(env: Env, job: Job, m: Machine)
    requires MachineOk(env, m) && InFlight(env, job, m) && Publishes(m, DiffPublish)
    ensures Ended(env, job, m, Step(env, m, DiffPublish))
  {
    hide MachineOk, InFlight, ContentOfJob, Open, FileGoodFor, ListingOf, VerdictOnJob, Step, FateOn;
    WorkerHolds(env, job, m);
    PublishesTheJob(env, job, m);
    PassMeansIngest(env, job, Seen(job, Tip(m)), ListingOf(m.store));
  }

  /** The atomic ingest of a good file that passed the gate publishes it. */
  lemma {:induction false} PassMeansIngest(env: Env, job: Job, header: bool, l: Listing)
    requires FileGoodFor(env, job, header) && env.parses(job.cfg.reader, job.sha) && !job.options.dryRun
    requires VerdictOnJob(env, job) == V.Pass
    ensures FateOn(env, job, header, l) == Ending(Succeeded, Ingest(l, AsMap(ContentOfJob(env, job))))
  {
    hide VerdictOnJob, ContentOfJob, FileGoodFor;
  }

  lemma {:induction false} CancelledInFlight(env: Env, job: Job, m: Machine)
    requires MachineOk(env, m) && InFlight(env, job, m) && Working(m) && Cancellable(m)
    requires ListingOf(Step(env, m, StopCancelled).store) == ListingOf(m.store)
    ensures Ended(env, job, m, Step(env, m, StopCancelled))
  {
    hide MachineOk, InFlight, FateOn, ListingOf, CloseVersion, PhaseFits;
    WorkerHolds(env, job, m);
  }

  lemma {:induction false} InternalInFlight(env: Env, job: Job, m: Machine)
    requires MachineOk(env, m) && InFlight(env, job, m) && Working(m)
    requires ListingOf(Step(env, m, StopInternal).store) == ListingOf(m.store)
    ensures Ended(env, job, m, Step(env, m, StopInternal))
  {
    hide MachineOk, InFlight, FateOn, ListingOf, CloseVersion, PhaseFits;
    WorkerHolds(env, job, m);
  }

  lemma {:induction false} FailDataInFlight(env: Env, job: Job, m: Machine)
    requires MachineOk(env, m) && InFlight(env, job, m) && Working(m)
    requires ListingOf(Step(env, m, FailData).store) == ListingOf(m.store)
    ensures InFlight(env, job, Step(env, m, FailData)) || Ended(env, job, m, Step(env, m, FailData))
  {
    hide MachineOk, InFlight, FileGoodFor, VerdictOnJob, ListingOf, CloseVersion, MarkVersion, Open, ContentOfJob;
    WorkerHolds(env, job, m);
  }

  lemma {:induction false} ParseInFlight(env: Env, job: Job, m: Machine, e: Event)
    requires MachineOk(env, m) && InFlight(env, job, m) && Working(m)
    requires e.StartParse? || e.FlushBatch? || e.FinishParse? || e.Crash?
    requires DataStill(job.st, Step(env, m, e).store)
    ensures InFlight(env, job, Step(env, m, e))
  {
    hide MachineOk, DataStill, FileGoodFor, VerdictOnJob, InFlight, FirstByKey, Checkpoint, ContentOfJob, Seen;
    WorkerHolds(env, job, m);
    MovesOn(env, job, m, Step(env, m, e));
  }

  lemma {:induction false} DryRunInFlight(env: Env, job: Job, m: Machine)
    requires MachineOk(env, m) && InFlight(env, job, m) && Working(m)
    requires ListingOf(Step(env, m, FinishDryRun).store) == ListingOf(m.store)
    ensures InFlight(env, job, Step(env, m, FinishDryRun)) || Ended(env, job, m, Step(env, m, FinishDryRun))
  {
    hide MachineOk, InFlight, FileGoodFor, VerdictOnJob, ListingOf, CloseVersion, MarkVersion, Open, ContentOfJob;
    WorkerHolds(env, job, m);
  }

  /** A job with its bytes at hand neither fetches nor releases. */
  lemma {:induction false} IdleInFlight(env: Env, job: Job, m: Machine, e: Event)
    requires MachineOk(env, m) && InFlight(env, job, m) && Working(m)
    requires e.FetchFailed? || e.NotModified? || e.FetchAndArchive? || e.PublishHeld?
             || (e.ReuseArchive? && !m.worker.value.phase.Fetching?) || (e.ValidateFile? && !m.worker.value.phase.Archived?)
             || (e.ValidateRecords? && !m.worker.value.phase.Parsed?) || (e.DiffPublish? && !Publishes(m, e))
             || (e.StopCancelled? && !Cancellable(m))
    ensures Step(env, m, e) == m
  {
    hide MachineOk, InFlight, Checkpoint, Cancellable, FileGoodFor, VerdictOnJob, ContentOfJob, StagedOf;
    WorkerHolds(env, job, m);
  }

  lemma {:induction false} WorkerStepInFlight(env: Env, job: Job, m: Machine, e: Event)
    requires MachineOk(env, m) && InFlight(env, job, m) && OfWorker(e) && Working(m) && !e.StagingFailed?
    requires !Publishes(m, e) ==> DataStill(job.st, Step(env, m, e).store) && ListingOf(Step(env, m, e).store) == ListingOf(m.store)
    ensures InFlight(env, job, Step(env, m, e)) || Ended(env, job, m, Step(env, m, e))
  {
    hide MachineOk, InFlight, Ended, DataStill, ListingOf, Checkpoint, PhaseFits, WorkerStep, Cancellable;
    match e {
      case ReuseArchive => if m.worker.value.phase.Fetching? { ReuseInFlight(env, job, m); } else { IdleInFlight(env, job, m, e); }
      case ValidateFile => if m.worker.value.phase.Archived? { ValidateFileInFlight(env, job, m); } else { IdleInFlight(env, job, m, e); }
      case FailData => FailDataInFlight(env, job, m);
      case StartParse => ParseInFlight(env, job, m, e);
      case FlushBatch(_) => ParseInFlight(env, job, m, e);
      case FinishParse => ParseInFlight(env, job, m, e);
      case Crash => ParseInFlight(env, job, m, e);
      case ValidateRecords => if m.worker.value.phase.Parsed? { VerdictInFlight(env, job, m); } else { IdleInFlight(env, job, m, e); }
      case FinishDryRun => DryRunInFlight(env, job, m);
      case DiffPublish => if Publishes(m, e) { PublishInFlight(env, job, m); } else { IdleInFlight(env, job, m, e); }
      case StopCancelled => if Cancellable(m) { CancelledInFlight(env, job, m); } else { IdleInFlight(env, job, m, e); }
      case StopInternal => InternalInFlight(env, job, m);
      case _ => IdleInFlight(env, job, m, e);
    }
  }

  lemma {:induction false} StillOf(env: Env, job: Job, m: Machine, e: Event)
    requires MachineOk(env, m) && InFlight(env, job, m) && !Publishes(m, e) && OfWorker(e)
    ensures DataStill(job.st, Step(env, m, e).store) && ListingOf(Step(env, m, e).store) == ListingOf(m.store)
  {
    hide MachineOk, Step, DataStill;
    StillStill(env, job, m, e);
  }

  lemma {:induction false} StepInFlight(env: Env, job: Job, m: Machine, e: Event)
    requires MachineOk(env, m) && InFlight(env, job, m) && Undisturbed(job, m, e)
    ensures InFlight(env, job, Step(env, m, e)) || Ended(env, job, m, Step(env, m, e))
  {
    assert !e.StagingFailed?;
    hide MachineOk, InFlight, Ended, Undisturbed, WorkerStep, TableStep;
    if !OfWorker(e) {
      if e.ReclaimRun? {
        ReclaimInFlight(env, job, m, e.run, e.now);
      } else {
        TableStepInFlight(env, job, m, e);
      }
    } else if Working(m) {
      if !Publishes(m, e) {
        StillOf(env, job, m, e);
      }
      WorkerStepInFlight(env, job, m, e);
    }
  }

  // ---------------------------------------------------------------------------------------------
  // Whole schedules
  // ---------------------------------------------------------------------------------------------

  /** The key a reviewer's decision releases in this step, if any. */
  function ReleasedKey(m: Machine, e: Event): set<Key> {
    if Resolves(m, e) then
      var c := m.store.proposals[e.proposal].subject.candidate;
      if c < |m.store.removals| && ReleasedByReviewer(m, e, m.store.removals[c].key) then {m.store.removals[c].key} else {}
    else {}
  }

  /** The keys reviewers released along the way. */
  function Released(env: Env, m: Machine, es: seq<Event>): set<Key> {
    if es == [] then {}
    else Released(env, m, es[..|es| - 1]) + ReleasedKey(Execute(env, m, es[..|es| - 1]), es[|es| - 1])
  }

  /** No event of the schedule disturbs the job while it is in flight. */
  ghost predicate Schedule(env: Env, job: Job, m: Machine, es: seq<Event>) {
    forall n :: 0 <= n < |es| && InFlight(env, job, Execute(env, m, es[..n])) ==> Undisturbed(job, Execute(env, m, es[..n]), es[n])
  }

  /** The job is in flight all along. */
  ghost predicate Alive(env: Env, job: Job, m: Machine, es: seq<Event>) {
    InFlight(env, job, Execute(env, m, es)) && (es != [] ==> Alive(env, job, m, es[..|es| - 1]))
  }

  /** The job is over right after event `n` of the schedule. */
  ghost predicate EndsAt(env: Env, job: Job, m: Machine, es: seq<Event>, n: nat)
    requires n < |es|
  {
    Alive(env, job, m, es[..n]) && Ended(env, job, Execute(env, m, es[..n]), Execute(env, m, es[..n + 1]))
  }

  /** What is listed and held, less what reviewers have released since `m`. */
  function Before(env: Env, m: Machine, es: seq<Event>): Listing {
    ListingOf(m.store).(held := HoldingKeys(m.store.removals) - Released(env, m, es))
  }

  /** What event `n` leaves is what the atomic ingest makes of the listing the job started from, or that listing. */
  ghost predicate EndsAsIngest(env: Env, job: Job, m: Machine, es: seq<Event>, n: nat)
    requires n < |es|
  {
    var before, after := Execute(env, m, es[..n]), Execute(env, m, es[..n + 1]);
    0 <= Tip(before) < |after.runs|
    && var status := after.runs[Tip(before)].status;
       if Completed(status) then Ending(status, ListingOf(after.store)) == Fate(env, job, Before(env, m, es[..n]))
       else status in {Failed, Cancelled, Abandoned} && ListingOf(after.store) == Before(env, m, es[..n])
  }

  lemma {:induction false} SchedulePrefix(env: Env, job: Job, m: Machine, es: seq<Event>)
    requires es != [] && Schedule(env, job, m, es)
    ensures Schedule(env, job, m, es[..|es| - 1])
  {
    hide InFlight, Undisturbed, Execute;
    var init := es[..|es| - 1];
    forall n | 0 <= n < |init| && InFlight(env, job, Execute(env, m, init[..n])) ensures Undisturbed(job, Execute(env, m, init[..n]), init[n]) {
      assert init[..n] == es[..n];
    }
  }

  /**
   Along every schedule of steps, crashes, reclaims, claims and removal decisions the job is either still in flight,
   or it ended in one of the ways `Ended` allows.
   */
  lemma {:induction false} AliveOrEnded(env: Env, job: Job, m: Machine, es: seq<Event>)
    requires MachineOk(env, m) && InFlight(env, job, m) && Schedule(env, job, m, es)
    ensures Alive(env, job, m, es) || exists n :: 0 <= n < |es| && EndsAt(env, job, m, es, n)
  {
    hide MachineOk, InFlight, Ended, Undisturbed, Step;
    if es == [] {
    } else {
      var last := |es| - 1;
      SchedulePrefix(env, job, m, es);
      AliveOrEnded(env, job, m, es[..last]);
      ExecuteKeepsMachineOk(env, m, es[..last]);
      if Alive(env, job, m, es[..last]) {
        StepInFlight(env, job, Execute(env, m, es[..last]), es[last]);
        assert es[..last + 1] == es;
        assert Alive(env, job, m, es) || EndsAt(env, job, m, es, last);
      } else {
        var n :| 0 <= n < last && EndsAt(env, job, m, es[..last], n);
        assert es[..last][..n] == es[..n] && es[..last][..n + 1] == es[..n + 1];
        assert EndsAt(env, job, m, es, n);
      }
    }
  }

  lemma {:induction false} ResolveReleasesKey(env: Env, m: Machine, e: Event)
    requires MachineOk(env, m) && Resolves(m, e)
    ensures ListingOf(Step(env, m, e).store)
            == ListingOf(m.store).(held := HoldingKeys(m.store.removals) - ReleasedKey(m, e))
  {
    hide MachineOk, Step, Open, HoldingKeys;
    ResolveStep(env, m, e);
    assert HoldingKeys(m.store.removals) - {} == HoldingKeys(m.store.removals);
  }

  /** A step of a job in flight that does not end it changes the listing by the released key alone. */
  lemma {:induction false} StepReleases(env: Env, job: Job, m: Machine, e: Event)
    requires MachineOk(env, m) && InFlight(env, job, m) && InFlight(env, job, Step(env, m, e))
    ensures ListingOf(Step(env, m, e).store)
            == ListingOf(m.store).(held := HoldingKeys(m.store.removals) - ReleasedKey(m, e))
  {
    hide MachineOk, InFlight, Step, Open, HoldingKeys, ReleasedByReviewer;
    if Publishes(m, e) {
      PublishEndsTheJob(env, job, m, e);
    } else if Resolves(m, e) {
      ResolveReleasesKey(env, m, e);
    } else {
      QuietStep(env, m, e);
      assert HoldingKeys(m.store.removals) - {} == HoldingKeys(m.store.removals);
    }
  }

  lemma {:induction false} PublishEndsTheJob(env: Env, job: Job, m: Machine, e: Event)
    requires MachineOk(env, m) && InFlight(env, job, m) && Publishes(m, e)
    ensures !InFlight(env, job, Step(env, m, e))
  {
    hide MachineOk, InFlight, Step, FileGoodFor, VerdictOnJob, ContentOfJob, Ingest, ListingOf;
    WorkerHolds(env, job, m);
    assert e == DiffPublish;
    PublishesTheJob(env, job, m);
    NotInFlight(env, job, Step(env, m, e));
  }

  lemma {:induction false} AliveReleases(env: Env, job: Job, m: Machine, es: seq<Event>)
    requires MachineOk(env, m) && Alive(env, job, m, es)
    ensures ListingOf(Execute(env, m, es).store) == Before(env, m, es)
  {
    hide MachineOk, InFlight, Step, Open, HoldingKeys, ReleasedKey;
    if es == [] {
    } else {
      var init := es[..|es| - 1];
      AliveReleases(env, job, m, init);
      ExecuteKeepsMachineOk(env, m, init);
      assert InFlight(env, job, Execute(env, m, init));
      StepReleases(env, job, Execute(env, m, init), es[|es| - 1]);
    }
  }

  /** With a date from the response the checks let through at least what they let through without. */
  lemma {:induction false} RejectsMonotone(env: Env, job: Job)
    requires Rejects(env, job, true)
    ensures Rejects(env, job, false)
  {
    hide VerdictOnJob;
  }

  /** Unless the header can be lost and matters, every attempt reaches the same end. */
  lemma {:induction false} SameFate(env: Env, job: Job, m: Machine, l: Listing)
    requires MachineOk(env, m) && InFlight(env, job, m)
    requires LosesHeader(env, job) ==> Rejects(env, job, job.header)
    ensures FateOn(env, job, Seen(job, Tip(m)), l) == Fate(env, job, l)
  {
    QueueIsOk(env, m);
    ChainShares(m.runs, job.root, Tip(m));
    AttemptIsChainLength(m.runs, Tip(m));
    hide MachineOk, QueueOk, VerdictOnJob, Ingest;
    if LosesHeader(env, job) {
      RejectsMonotone(env, job);
    }
  }

  /** The ending of one schedule. */
  lemma {:induction false} EndsAsTheIngest(env: Env, job: Job, m: Machine, es: seq<Event>, n: nat)
    requires MachineOk(env, m) && n < |es| && EndsAt(env, job, m, es, n)
    requires LosesHeader(env, job) ==> Rejects(env, job, job.header)
    ensures EndsAsIngest(env, job, m, es, n)
  {
    hide *;
    var before, after := Execute(env, m, es[..n]), Execute(env, m, es[..n + 1]);
    ExecuteKeepsMachineOk(env, m, es[..n]);
    EndsFromFlight(env, job, m, es, n);
    AliveReleases(env, job, m, es[..n]);
    SameFate(env, job, before, ListingOf(before.store));
    EndingIs(env, job, m, es, n);
  }

  lemma {:induction false} EndsFromFlight(env: Env, job: Job, m: Machine, es: seq<Event>, n: nat)
    requires n < |es| && EndsAt(env, job, m, es, n)
    ensures Alive(env, job, m, es[..n]) && InFlight(env, job, Execute(env, m, es[..n]))
    ensures Ended(env, job, Execute(env, m, es[..n]), Execute(env, m, es[..n + 1]))
  {
    hide InFlight, Ended, Execute;
  }

  lemma {:induction false} EndingIs(env: Env, job: Job, m: Machine, es: seq<Event>, n: nat)
    requires n < |es| && Ended(env, job, Execute(env, m, es[..n]), Execute(env, m, es[..n + 1]))
    requires var before := Execute(env, m, es[..n]);
             && ListingOf(before.store) == Before(env, m, es[..n])
             && FateOn(env, job, Seen(job, Tip(before)), ListingOf(before.store)) == Fate(env, job, ListingOf(before.store))
    ensures EndsAsIngest(env, job, m, es, n)
  {
    hide Execute, FateOn, Fate, ListingOf, Before;
  }

  /**
   Crash transparency. Along every schedule of steps, crashes, reclaims, claims and removal decisions, the job is
   either still in flight, with the open list untouched and only reviewers' releases missing from the holds, or it
   ended exactly as one atomic ingest of the archived bytes into that listing does, or was given up with that
   listing unchanged.
   */
  lemma {:induction false} CrashTransparency(env: Env, job: Job, m: Machine, es: seq<Event>)
    requires MachineOk(env, m) && InFlight(env, job, m) && Schedule(env, job, m, es)
    requires LosesHeader(env, job) ==> Rejects(env, job, job.header)
    ensures (InFlight(env, job, Execute(env, m, es)) && ListingOf(Execute(env, m, es).store) == Before(env, m, es))
            || exists n :: 0 <= n < |es| && EndsAt(env, job, m, es, n) && EndsAsIngest(env, job, m, es, n)
  {
    hide MachineOk, InFlight, Ended, Undisturbed, Step, Execute, Schedule, EndsAsIngest, LosesHeader, Rejects, Before;
    AliveOrEnded(env, job, m, es);
    if Alive(env, job, m, es) {
      AliveReleases(env, job, m, es);
    } else {
      var n :| 0 <= n < |es| && EndsAt(env, job, m, es, n);
      EndsAsTheIngest(env, job, m, es, n);
    }
  }

  // ---------------------------------------------------------------------------------------------
  // When the header is lost
  // ---------------------------------------------------------------------------------------------

  /** The first attempt has just archived the file and dies; the next one starts from the archived bytes. */
  function LosingSchedule(r: nat, now: int, worker: Actor): seq<Event> {
    [SetActive(true), Crash, ReclaimRun(r, now), Claim(r + 1, worker, now, 0), ReuseArchive, ValidateFile, FailData]
  }

  lemma {:induction false} ExecuteNext(env: Env, m: Machine, es: seq<Event>, n: nat)
    requires n < |es|
    ensures Execute(env, m, es[..n + 1]) == Step(env, Execute(env, m, es[..n]), es[n])
  {
    hide Step;
    assert es[..n + 1][..n] == es[..n];
  }

  /** A step after which the run is still there for somebody to go on with did not end the job. */
  lemma {:induction false} GoesOn(env: Env, job: Job, m: Machine, e: Event)
    requires MachineOk(env, m) && InFlight(env, job, m) && Undisturbed(job, m, e)
    requires var m' := Step(env, m, e);
             m'.worker.Some? || |m'.runs| != |m.runs| || Active(m'.runs[Tip(m)].status)
    ensures InFlight(env, job, Step(env, m, e)) && MachineOk(env, Step(env, m, e))
  {
    hide MachineOk, InFlight, Step, FateOn;
    StepInFlight(env, job, m, e);
    StepKeepsMachineOk(env, m, e);
  }

  lemma {:induction false} Resumed(env: Env, m: Machine, now: int)
    requires QueueOk(m.runs) && m.runs != [] && m.worker.None? && m.active
    requires var r := m.runs[|m.runs| - 1]; r.status == Running && r.leaseExpires < now && r.attempt <= MAX_RESUMES
    ensures var t, m' := |m.runs| - 1, Step(env, m, ReclaimRun(|m.runs| - 1, now));
            && |m'.runs| == |m.runs| + 1 && m'.runs[t + 1] == ResumeOf(m.runs[t], t, now)
            && m'.runs[t].archived == m.runs[t].archived && m'.archive == m.archive && m'.worker.None?
  {
    ReclaimResumesIff(m.runs, |m.runs| - 1, m.active, now);
    hide QueueOk, Reclaim;
  }

  lemma {:induction false} Died(env: Env, m: Machine)
    requires Working(m)
    ensures Step(env, m, SetActive(true)) == m.(active := true)
    ensures Step(env, m, Crash) == m.(worker := None)
  {
  }

  lemma {:induction false} StaysAtWork(job: Job, m: Machine)
    requires Working(m)
    ensures m.worker.Some? && Working(m.(active := true))
    ensures Undisturbed(job, m, SetActive(true)) && Undisturbed(job, m.(active := true), Crash)
    ensures Tip(m.(active := true)) == Tip(m)
  {
  }

  /** The attempt dies and nobody has noticed yet. */
  lemma {:induction false} FirstAttemptDies(env: Env, job: Job, m: Machine) returns (m': Machine)
    requires MachineOk(env, m) && InFlight(env, job, m) && Working(m) && Tip(m) == job.root
    ensures m' == Step(env, Step(env, m, SetActive(true)), Crash) == m.(active := true, worker := None)
    ensures InFlight(env, job, Step(env, m, SetActive(true))) && InFlight(env, job, m') && MachineOk(env, m')
  {
    hide *;
    m' := m.(active := true, worker := None);
    StaysAtWork(job, m);
    WorkerRuns(env, m);
    Died(env, m);
    Died(env, m.(active := true));
    TipActive(env, job, m);
    GoesOn(env, job, m, SetActive(true));
    GoesOn(env, job, m.(active := true), Crash);
  }

  /** Its successor is queued. */
  lemma {:induction false} SuccessorQueued(env: Env, job: Job, m: Machine, now: int)
    requires MachineOk(env, m) && InFlight(env, job, m) && Tip(m) == job.root && m.worker.None? && m.active
    requires job.attempt <= MAX_RESUMES && m.runs[Tip(m)].status == Running && m.runs[Tip(m)].leaseExpires < now
    requires m.runs[Tip(m)].archived.Some?
    ensures var m' := Step(env, m, ReclaimRun(Tip(m), now));
            && MachineOk(env, m') && InFlight(env, job, m')
            && Tip(m') == Tip(m) + 1 && m'.worker.None? && m'.archive == m.archive && Claimable(m'.runs[Tip(m')], now)
  {
    hide *;
    var t := |m.runs| - 1;
    TipIs(m);
    QueueIsOk(env, m);
    AttemptKept(env, job, m);
    ArchivedMayDie(job, m, t, now);
    ResumeIsDue(m.runs[t], t, now);
    Resumed(env, m, now);
    GoesOn(env, job, m, ReclaimRun(t, now));
    TipIs(Step(env, m, ReclaimRun(t, now)));
  }

  lemma {:induction false} ArchivedMayDie(job: Job, m: Machine, r: nat, now: int)
    requires r < |m.runs| && m.runs[r].archived.Some?
    ensures Undisturbed(job, m, ReclaimRun(r, now))
  {
  }

  lemma {:induction false} TipIs(m: Machine)
    ensures Tip(m) == |m.runs| - 1
  {
  }

  lemma {:induction false} ResumeIsDue(run: Run, r: nat, now: int)
    ensures Claimable(ResumeOf(run, r, now), now)
  {
  }

  lemma {:induction false} AttemptKept(env: Env, job: Job, m: Machine)
    requires InFlight(env, job, m)
    ensures 0 <= job.root < |m.runs| && m.runs[job.root].attempt == job.attempt
  {
  }

  /** The bytes of the first attempt are archived. */
  lemma {:induction false} BytesAtHand(env: Env, job: Job, m: Machine)
    requires MachineOk(env, m) && InFlight(env, job, m) && Working(m) && Tip(m) == job.root
    ensures Me(m).archived == Some(job.sha) && job.sha in m.archive
  {
    assert ArchiveOk(m.runs, m.archive);
    WorkerHolds(env, job, m);
    hide TablesOk, WorkerOk, WorkerFits, DataStill;
  }

  /** A later attempt starts from the archived bytes, without a header. */
  lemma {:induction false} LaterAttemptStarts(env: Env, job: Job, m: Machine, worker: Actor, now: int)
    requires MachineOk(env, m) && InFlight(env, job, m) && Tip(m) != job.root && m.worker.None? && job.sha in m.archive
    requires Claimable(m.runs[Tip(m)], now)
    ensures var m1 := Step(env, m, Claim(Tip(m), worker, now, 0));
            var m2 := Step(env, m1, ReuseArchive);
            && InFlight(env, job, m1) && InFlight(env, job, m2) && MachineOk(env, m2)
            && Working(m2) && m2.worker.value.phase.Archived? && |m2.runs| == |m.runs|
  {
    AttemptKept(env, job, m);
    hide MachineOk, InFlight, FileGoodFor, FateOn, Step, Me, Checkpoint;
    var m1 := Step(env, m, Claim(Tip(m), worker, now, 0));
    ClaimedTip(env, job, m, worker, now);
    GoesOn(env, job, m, Claim(Tip(m), worker, now, 0));
    WorkerHolds(env, job, m1);
    ReusedTip(env, m1, job.sha);
    GoesOn(env, job, m1, ReuseArchive);
  }

  /** A file that needs a header fails its checks there. */
  lemma {:induction false} LaterAttemptRejects(env: Env, job: Job, m: Machine)
    requires MachineOk(env, m) && InFlight(env, job, m) && Tip(m) != job.root
    requires Working(m) && m.worker.value.phase.Archived? && !FileGoodFor(env, job, false)
    ensures var m' := Step(env, m, ValidateFile);
            && InFlight(env, job, m') && MachineOk(env, m') && |m'.runs| == |m.runs|
            && Working(m') && m'.worker.value.phase.FileRejected?
  {
    hide MachineOk, InFlight, FileGoodFor, FileGood, Step, Checkpoint, Ended;
    WorkerHolds(env, job, m);
    SameFileGood(env, job, m, false);
    RejectedTip(env, m);
    GoesOn(env, job, m, ValidateFile);
  }

  lemma {:induction false} LaterAttemptEnds(env: Env, job: Job, m: Machine)
    requires MachineOk(env, m) && InFlight(env, job, m) && Working(m) && m.worker.value.phase.FileRejected?
    ensures var m' := Step(env, m, FailData);
            Ended(env, job, m, m') && |m'.runs| == |m.runs| && m'.runs[Tip(m)].status == RunQuarantined
  {
    hide MachineOk, InFlight, Step, Ended, PhaseFits;
    WorkerHolds(env, job, m);
    QuarantinedTip(env, m);
    StepInFlight(env, job, m, FailData);
    NotInFlight(env, job, Step(env, m, FailData));
  }

  lemma {:induction false} ClaimedTip(env: Env, job: Job, m: Machine, worker: Actor, now: int)
    requires InFlight(env, job, m) && Claimable(m.runs[Tip(m)], now)
    ensures var m' := Step(env, m, Claim(Tip(m), worker, now, 0));
            && Working(m') && m'.worker.value.phase == Fetching && m'.worker.value.run == Tip(m) && |m'.runs| == |m.runs|
            && m'.archive == m.archive
  {
    hide DataStill;
  }

  lemma {:induction false} ReusedTip(env: Env, m: Machine, sha: Sha)
    requires Working(m) && m.worker.value.phase.Fetching? && Checkpoint(m.runs, Me(m)) == Some(sha) && sha in m.archive
    ensures var m' := Step(env, m, ReuseArchive);
            && Working(m') && m'.worker.value.phase == Archived(sha, false) && |m'.runs| == |m.runs|
            && m'.worker.value.cfg == m.worker.value.cfg && m'.worker.value.run == m.worker.value.run
  {
    hide Checkpoint;
  }

  lemma {:induction false} RejectedTip(env: Env, m: Machine)
    requires Working(m) && m.worker.value.phase.Archived?
    requires !FileGood(env, m.worker.value.cfg, m.store, m.worker.value.phase.sha, m.worker.value.phase.header)
    ensures var m' := Step(env, m, ValidateFile);
            && Working(m') && m'.worker.value.phase.FileRejected? && m'.runs == m.runs && m'.worker.value.run == m.worker.value.run
  {
    hide FileGood, MaxSeq;
  }

  lemma {:induction false} QuarantinedTip(env: Env, m: Machine)
    requires Working(m) && m.worker.value.phase.FileRejected?
    ensures var m' := Step(env, m, FailData);
            |m'.runs| == |m.runs| && m'.runs[m.worker.value.run].status == RunQuarantined
  {
    hide CloseVersion;
  }

  lemma {:induction false} NotInFlight(env: Env, job: Job, m: Machine)
    requires m.runs != [] && !Active(m.runs[Tip(m)].status)
    ensures !InFlight(env, job, m)
  {
  }

  /** The successor's attempt, from the moment it is queued: in flight up to its last step, which quarantines it. */
  ghost predicate QuarantinesNext(env: Env, job: Job, m3: Machine, now: int, worker: Actor) {
    && Tip(m3) >= 0
    && var m4 := Step(env, m3, Claim(Tip(m3), worker, now, 0));
    var m5 := Step(env, m4, ReuseArchive);
    InFlight(env, job, m4) && Tip(m5) == Tip(m3) && ChecksQuarantine(env, job, m5)
  }

  ghost predicate ChecksQuarantine(env: Env, job: Job, m5: Machine) {
    var m6 := Step(env, m5, ValidateFile);
    InFlight(env, job, m5) && InFlight(env, job, m6) && Tip(m6) == Tip(m5) && Quarantines(env, job, m6)
  }

  ghost predicate Quarantines(env: Env, job: Job, m: Machine) {
    var m' := Step(env, m, FailData);
    Ended(env, job, m, m') && 0 <= Tip(m) < |m'.runs| && m'.runs[Tip(m)].status == RunQuarantined
  }

  lemma {:induction false} SuccessorQuarantines(env: Env, job: Job, m: Machine, worker: Actor, now: int)
    requires MachineOk(env, m) && InFlight(env, job, m) && Tip(m) != job.root && m.worker.None? && job.sha in m.archive
    requires Claimable(m.runs[Tip(m)], now) && !FileGoodFor(env, job, false)
    ensures QuarantinesNext(env, job, m, now, worker)
  {
    AttemptKept(env, job, m);
    hide MachineOk, InFlight, Step, Ended, FileGoodFor, ChecksQuarantine, Me;
    LaterAttemptStarts(env, job, m, worker, now);
    SuccessorChecks(env, job, Step(env, Step(env, m, Claim(Tip(m), worker, now, 0)), ReuseArchive));
  }

  lemma {:induction false} SuccessorChecks(env: Env, job: Job, m: Machine)
    requires MachineOk(env, m) && InFlight(env, job, m) && Tip(m) != job.root
    requires Working(m) && m.worker.value.phase.Archived? && !FileGoodFor(env, job, false)
    ensures ChecksQuarantine(env, job, m)
  {
    hide MachineOk, InFlight, Step, Ended, FileGoodFor, Quarantines, Me;
    LaterAttemptRejects(env, job, m);
    SuccessorEnds(env, job, Step(env, m, ValidateFile));
  }

  lemma {:induction false} SuccessorEnds(env: Env, job: Job, m: Machine)
    requires MachineOk(env, m) && InFlight(env, job, m) && Working(m) && m.worker.value.phase.FileRejected?
    ensures Quarantines(env, job, m)
  {
    AttemptKept(env, job, m);
    hide MachineOk, InFlight, Step, Ended, FileGoodFor;
    LaterAttemptEnds(env, job, m);
  }

  /** The losing schedule up to the successor. */
  lemma {:induction false} HeaderDies(env: Env, job: Job, m: Machine, m2: Machine, now: int, worker: Actor)
    requires MachineOk(env, m) && InFlight(env, job, m) && Working(m) && Tip(m) == job.root
    requires LosesHeader(env, job) && Me(m).leaseExpires < now && m2 == Step(env, Step(env, m, SetActive(true)), Crash)
    ensures InFlight(env, job, Step(env, m, SetActive(true))) && InFlight(env, job, m2)
    ensures var m3 := Step(env, m2, ReclaimRun(job.root, now));
            && InFlight(env, job, m3) && Tip(m3) == job.root + 1 && QuarantinesNext(env, job, m3, now, worker)
    ensures job.root < |m2.runs| && m2.runs[job.root].archived.Some?
  {
    BytesAtHand(env, job, m);
    WorkerRuns(env, m);
    WorkerHolds(env, job, m);
    NoHeaderNoPass(env, job);
    hide MachineOk, InFlight, Step, Ended, FileGoodFor, PhaseFits, Checkpoint, ContentOfJob, StagedOf, QuarantinesNext;
    var dead := FirstAttemptDies(env, job, m);
    SuccessorQueued(env, job, m2, now);
    SuccessorQuarantines(env, job, Step(env, m2, ReclaimRun(job.root, now)), worker, now);
  }

  /**
   A file whose only marker is the response's Last-Modified, under a gate that requires one: had the first attempt
   gone on it would have passed its checks, but when it dies after archiving, its successor quarantines the file.
   */
  lemma {:induction false} HeaderIsLost(env: Env, job: Job, m: Machine, worker: Actor)
    requires MachineOk(env, m) && InFlight(env, job, m) && Working(m) && Tip(m) == job.root
    requires LosesHeader(env, job) && !Rejects(env, job, job.header)
    ensures var es := LosingSchedule(job.root, Me(m).leaseExpires + 1, worker);
            && Schedule(env, job, m, es) && EndsAt(env, job, m, es, 6) && !EndsAsIngest(env, job, m, es, 6)
            && 0 <= Tip(Execute(env, m, es[..6])) == job.root + 1 < |Execute(env, m, es).runs|
            && Execute(env, m, es).runs[job.root + 1].status == RunQuarantined
  {
    var now, r := Me(m).leaseExpires + 1, job.root;
    var es := LosingSchedule(r, now, worker);
    hide MachineOk, InFlight, Step, Execute, Ended, ListingOf, Before, Fate, Rejects, Schedule, EndsAsIngest, Alive, Me, Tip;
    hide LosesHeader, QuarantinesNext;
    HeaderDies(env, job, m, Step(env, Step(env, m, SetActive(true)), Crash), now, worker);
    LosingStates(env, m, r, now, worker);
    LosingGoes(env, job, m, es, now, worker);
    LosingScheduleIsOne(env, job, m, es, now, worker);
    QuarantineIsNotTheIngest(env, job, m, es);
  }

  /** What the parts say, along the schedule. */
  lemma {:induction false} LosingGoes(env: Env, job: Job, m: Machine, es: seq<Event>, now: int, worker: Actor)
    requires es == LosingSchedule(job.root, now, worker) && InFlight(env, job, m)
    requires InFlight(env, job, Execute(env, m, es[..1])) && InFlight(env, job, Execute(env, m, es[..2]))
    requires InFlight(env, job, Execute(env, m, es[..3])) && Tip(Execute(env, m, es[..3])) == job.root + 1
    requires QuarantinesNext(env, job, Execute(env, m, es[..3]), now, worker)
    ensures EndsAt(env, job, m, es, 6)
    ensures var before, after := Execute(env, m, es[..6]), Execute(env, m, es[..7]);
            && Tip(before) == job.root + 1 < |after.runs| && after.runs[job.root + 1].status == RunQuarantined
    ensures es[..7] == es
  {
    hide InFlight, Step, Execute, Ended, Alive;
    LosingStates(env, m, job.root, now, worker);
    AliveSix(env, job, m, es);
  }

  /** Nothing in it disturbs the job: the attempt is abandoned after it has archived. */
  lemma {:induction false} LosingScheduleIsOne(env: Env, job: Job, m: Machine, es: seq<Event>, now: int, worker: Actor)
    requires es == LosingSchedule(job.root, now, worker)
    requires job.root < |Execute(env, m, es[..2]).runs| && Execute(env, m, es[..2]).runs[job.root].archived.Some?
    ensures Schedule(env, job, m, es)
  {
    hide InFlight, Execute;
    forall n | 0 <= n < |es| ensures Undisturbed(job, Execute(env, m, es[..n]), es[n]) {
      if n == 2 {
        assert es[n] == ReclaimRun(job.root, now);
      } else {
        assert !es[n].ReclaimRun? && !es[n].SetConfig? && !es[n].StagingFailed?;
      }
    }
  }

  lemma {:induction false} QuarantineIsNotTheIngest(env: Env, job: Job, m: Machine, es: seq<Event>)
    requires |es| == 7 && !Rejects(env, job, job.header)
    requires var before, after := Execute(env, m, es[..6]), Execute(env, m, es[..7]);
             0 <= Tip(before) < |after.runs| && after.runs[Tip(before)].status == RunQuarantined
    ensures !EndsAsIngest(env, job, m, es, 6)
  {
    LetThrough(env, job, Before(env, m, es[..6]));
    hide Execute, Before, Fate, Rejects, ListingOf;
  }

  lemma {:induction false} NoHeaderNoPass(env: Env, job: Job)
    requires LosesHeader(env, job)
    ensures !FileGoodFor(env, job, false)
  {
  }

  lemma {:induction false} LetThrough(env: Env, job: Job, l: Listing)
    requires !Rejects(env, job, job.header)
    ensures Fate(env, job, l).status != RunQuarantined
  {
    hide Rejects, VerdictOnJob, Ingest;
  }

  lemma {:induction false} AliveSix(env: Env, job: Job, m: Machine, es: seq<Event>)
    requires |es| == 7 && forall n :: 0 <= n <= 6 ==> InFlight(env, job, Execute(env, m, es[..n]))
    ensures Alive(env, job, m, es[..6])
  {
    AliveUpTo(env, job, m, es, 6);
  }

  lemma {:induction false} AliveUpTo(env: Env, job: Job, m: Machine, es: seq<Event>, k: nat)
    requires k <= |es| && forall n :: 0 <= n <= k ==> InFlight(env, job, Execute(env, m, es[..n]))
    ensures Alive(env, job, m, es[..k])
    decreases k
  {
    hide InFlight, Execute;
    assert InFlight(env, job, Execute(env, m, es[..k]));
    if k > 0 {
      AliveUpTo(env, job, m, es, k - 1);
      assert es[..k][..k - 1] == es[..k - 1];
    }
  }

  lemma {:induction false} LosingStates(env: Env, m: Machine, r: nat, now: int, worker: Actor)
    ensures var es := LosingSchedule(r, now, worker);
            && Execute(env, m, es[..0]) == m
            && Execute(env, m, es[..1]) == Step(env, m, SetActive(true))
            && Execute(env, m, es[..2]) == Step(env, Execute(env, m, es[..1]), Crash)
            && Execute(env, m, es[..3]) == Step(env, Execute(env, m, es[..2]), ReclaimRun(r, now))
            && Execute(env, m, es[..4]) == Step(env, Execute(env, m, es[..3]), Claim(r + 1, worker, now, 0))
            && Execute(env, m, es[..5]) == Step(env, Execute(env, m, es[..4]), ReuseArchive)
            && Execute(env, m, es[..6]) == Step(env, Execute(env, m, es[..5]), ValidateFile)
            && Execute(env, m, es[..7]) == Step(env, Execute(env, m, es[..6]), FailData)
  {
    hide Step, Execute;
    var es := LosingSchedule(r, now, worker);
    NothingExecuted(env, m, es[..0]);
    ExecuteNext(env, m, es, 0);
    ExecuteNext(env, m, es, 1);
    ExecuteNext(env, m, es, 2);
    ExecuteNext(env, m, es, 3);
    ExecuteNext(env, m, es, 4);
    ExecuteNext(env, m, es, 5);
    ExecuteNext(env, m, es, 6);
  }

  lemma {:induction false} NothingExecuted(env: Env, m: Machine, es: seq<Event>)
    requires es == []
    ensures Execute(env, m, es) == m
  {
  }

  /** Every schedule of the job ends as its atomic ingest. */
  ghost predicate Transparent(env: Env, job: Job, m: Machine) {
    forall es, n :: Schedule(env, job, m, es) && 0 <= n < |es| && EndsAt(env, job, m, es, n) ==> EndsAsIngest(env, job, m, es, n)
  }

  /**
   Exactly when crashes cannot change the ending: from the moment the first attempt has archived the file, every
   schedule ends as the uninterrupted ingest does iff the file has no need of a header that can be lost, or is not
   let through even with it.
   */
  lemma {:induction false} TransparentIff(env: Env, job: Job, m: Machine)
    requires MachineOk(env, m) && InFlight(env, job, m) && Working(m) && Tip(m) == job.root
    ensures Transparent(env, job, m) <==> (LosesHeader(env, job) ==> Rejects(env, job, job.header))
  {
    hide MachineOk, InFlight, Schedule, EndsAt, EndsAsIngest, LosesHeader, Rejects, Me;
    if LosesHeader(env, job) ==> Rejects(env, job, job.header) {
      forall es, n | Schedule(env, job, m, es) && 0 <= n < |es| && EndsAt(env, job, m, es, n) ensures EndsAsIngest(env, job, m, es, n) {
        EndsAsTheIngest(env, job, m, es, n);
      }
    } else {
      HeaderIsLost(env, job, m, RECLAIMER);
    }
  }

  /**
   Two schedules of one job, whatever crashes either has: when both finish after the same releases, they end with
   the same status, list and holds.
   */
  lemma {:induction false} CrashesDoNotMatter(env: Env, job: Job, m: Machine, es: seq<Event>, n: nat, crashed: seq<Event>, k: nat)
    requires MachineOk(env, m) && n < |es| && EndsAt(env, job, m, es, n) && k < |crashed| && EndsAt(env, job, m, crashed, k)
    requires Released(env, m, es[..n]) == Released(env, m, crashed[..k])
    requires LosesHeader(env, job) ==> Rejects(env, job, job.header)
    requires var a, b := Execute(env, m, es[..n]), Execute(env, m, crashed[..k]);
             && Completed(Execute(env, m, es[..n + 1]).runs[Tip(a)].status)
             && Completed(Execute(env, m, crashed[..k + 1]).runs[Tip(b)].status)
    ensures var a, b := Execute(env, m, es[..n]), Execute(env, m, crashed[..k]);
            var a', b' := Execute(env, m, es[..n + 1]), Execute(env, m, crashed[..k + 1]);
            && a'.runs[Tip(a)].status == b'.runs[Tip(b)].status
            && ListingOf(a'.store) == ListingOf(b'.store)
  {
    hide MachineOk, InFlight, Alive, Execute, Fate, ListingOf, Released, LosesHeader, Rejects;
    EndsAsTheIngest(env, job, m, es, n);
    EndsAsTheIngest(env, job, m, crashed, k);
  }

  /** The job starts in flight the moment its first attempt has archived the file and goes on. */
  lemma {:induction false} ArchivingStartsTheJob(env: Env, m: Machine, sha: Sha, header: bool)
    requires MachineOk(env, m) && Working(m) && m.worker.value.phase.Fetching? && Checkpoint(m.runs, Me(m)).None?
    requires m.worker.value.cfg == m.cfg && DoArchive(m, sha, header).worker.Some?
    ensures var job := Job(m.store, m.cfg, Me(m).options, m.worker.value.run, Me(m).attempt, sha, header);
            InFlight(env, job, DoArchive(m, sha, header)) && Tip(DoArchive(m, sha, header)) == job.root
  {
    hide TablesOk, SameAsPublished, PendingSame, Regressed, HoldingKeys;
  }
}
