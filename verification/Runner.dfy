/**
 The runner's straight-line code for one ingest: its branches and its flush loop, each transaction one step of the
 state machine. Uninterrupted, it ends exactly as the atomic ingest of the archived bytes.
 */
module Runner {
  import opened Base
  import opened Canonical
  import opened Scd2
  import opened ListStore
  import opened Staging
  import opened RunQueue
  import opened Pipeline
  import opened PipelineInvariant
  import opened PipelineSteps
  import opened PipelineTheorems
  import opened CrashTransparency
  import M = Metrics
  import V = Validation

  /** What the publisher's server answers: a file, dated by a Last-Modified header or not, "not modified", or an error. */
  datatype Response = Body(sha: Sha, dated: bool) | Unchanged | Broken

  /** The transaction that gets a run its bytes, or ends it: its checkpoint if it has one, else the response. */
  function Acquire(m: Machine, response: Response): Event
    requires Working(m)
  {
    if Checkpoint(m.runs, Me(m)).Some? then ReuseArchive
    else
      match response
      case Body(sha, dated) => FetchAndArchive(sha, dated)
      case Unchanged => NotModified
      case Broken => FetchFailed
  }

  /** The job a run starts once it has its bytes; reused bytes come without a header. */
  function JobOf(m: Machine, response: Response): Job
    requires Working(m) && (Checkpoint(m.runs, Me(m)).Some? || response.Body?)
  {
    var reused := Checkpoint(m.runs, Me(m));
    Job(m.store, m.cfg, Me(m).options, m.worker.value.run, Me(m).attempt,
        if reused.Some? then reused.value else response.sha, reused.None? && response.dated)
  }

  lemma {:induction false} ReusingStartsTheJob(env: Env, m: Machine)
    requires MachineOk(env, m) && Working(m) && m.worker.value.phase.Fetching? && Checkpoint(m.runs, Me(m)).Some?
    requires m.worker.value.cfg == m.cfg && DoReuse(m).worker.Some?
    ensures InFlight(env, JobOf(m, Broken), DoReuse(m))
  {
    hide TablesOk, Regressed, HoldingKeys;
  }

  /** One transaction of a job in flight. */
  lemma {:induction false} Advance(env: Env, job: Job, m: Machine, e: Event)
    requires MachineOk(env, m) && InFlight(env, job, m) && OfWorker(e) && !e.StagingFailed?
    ensures MachineOk(env, Step(env, m, e))
    ensures InFlight(env, job, Step(env, m, e)) || Ended(env, job, m, Step(env, m, e))
  {
    hide MachineOk, InFlight, Ended, Step;
    StepKeepsMachineOk(env, m, e);
    StepInFlight(env, job, m, e);
  }

  // ---------------------------------------------------------------------------------------------
  // Where each step of the straight-line code leads
  // ---------------------------------------------------------------------------------------------

  ghost predicate Continues(m: Machine, m': Machine) {
    Working(m) && Working(m') && m'.worker.value.run == m.worker.value.run && m'.runs == m.runs
    && m'.worker.value.cfg == m.worker.value.cfg
  }

  ghost predicate EndsAs(m: Machine, m': Machine, statuses: set<RunStatus>) {
    && Working(m) && m'.worker.None? && |m'.runs| == |m.runs|
    && m'.runs[m.worker.value.run].status in statuses
  }

  /** Acquiring the bytes either starts the job or ends the run with nothing published. */
  ghost predicate Acquired(env: Env, m: Machine, m': Machine, response: Response)
    requires Working(m)
  {
    && (m'.worker.Some? ==>
          && Working(m') && m'.worker.value.run == m.worker.value.run && m'.worker.value.phase.Archived?
          && (Checkpoint(m.runs, Me(m)).Some? || response.Body?) && InFlight(env, JobOf(m, response), m'))
    && (m'.worker.None? ==> EndsAs(m, m', EarlyEnd(m, response)))
  }

  /** How a run may end before it has a file to look at. */
  function EarlyEnd(m: Machine, response: Response): set<RunStatus>
    requires Working(m)
  {
    if Checkpoint(m.runs, Me(m)).Some? then {Failed}
    else
      match response
      case Body(_, _) => {NoChange, RunHeld, RunQuarantined}
      case Unchanged => {NoChange}
      case Broken => {Failed}
  }

  lemma {:induction false} ReuseLeads(env: Env, m: Machine, response: Response)
    requires MachineOk(env, m) && Working(m) && m.worker.value.phase.Fetching? && m.worker.value.cfg == m.cfg
    requires Checkpoint(m.runs, Me(m)).Some?
    ensures Acquired(env, m, Step(env, m, ReuseArchive), response)
  {
    hide MachineOk, InFlight, Checkpoint;
    if DoReuse(m).worker.Some? {
      ReusingStartsTheJob(env, m);
    }
  }

  lemma {:induction false} FetchLeads(env: Env, m: Machine, response: Response)
    requires MachineOk(env, m) && Working(m) && m.worker.value.phase.Fetching? && m.worker.value.cfg == m.cfg
    requires Checkpoint(m.runs, Me(m)).None?
    ensures Acquired(env, m, Step(env, m, Acquire(m, response)), response)
  {
    hide MachineOk, InFlight, SameAsPublished, PendingSame, Checkpoint;
    if response.Body? && DoArchive(m, response.sha, response.dated).worker.Some? {
      ArchivingStartsTheJob(env, m, response.sha, response.dated);
    }
  }

  lemma {:induction false} FileStepLeads(env: Env, m: Machine)
    requires Working(m) && m.worker.value.phase.Archived?
    ensures var m', sha := Step(env, m, ValidateFile), m.worker.value.phase.sha;
            Continues(m, m') && m'.worker.value.phase in {FileChecked(sha, |m.store.versions|), FileRejected(sha, |m.store.versions|)}
  {
    hide Regressed, MaxSeq;
  }

  lemma {:induction false} FailStepLeads(env: Env, m: Machine)
    requires Working(m)
    requires m.worker.value.phase.FileRejected? || (m.worker.value.phase.Parsing? && !env.parses(m.worker.value.cfg.reader, m.worker.value.phase.sha))
    ensures EndsAs(m, Step(env, m, FailData), {RunQuarantined})
  {
    hide CloseVersion;
  }

  lemma {:induction false} ParseStepsLead(env: Env, m: Machine)
    requires Working(m)
    ensures m.worker.value.phase.FileChecked? ==>
              Continues(m, Step(env, m, StartParse))
              && Step(env, m, StartParse).worker.value.phase == Parsing(m.worker.value.phase.sha, m.worker.value.phase.version, 0)
    ensures m.worker.value.phase.Parsing? && m.worker.value.phase.upto == |env.records(m.worker.value.cfg.reader, m.worker.value.phase.sha)|
              && env.parses(m.worker.value.cfg.reader, m.worker.value.phase.sha) ==>
              Continues(m, Step(env, m, FinishParse)) && Step(env, m, FinishParse).worker.value.phase.Parsed?
  {
    hide FirstByKey;
  }

  lemma {:induction false} FlushStepLeads(env: Env, m: Machine, upto: nat)
    requires Working(m) && m.worker.value.phase.Parsing? && m.worker.value.phase.upto < upto <= |env.records(m.worker.value.cfg.reader, m.worker.value.phase.sha)|
    ensures Continues(m, Step(env, m, FlushBatch(upto)))
    ensures Step(env, m, FlushBatch(upto)).worker.value.phase
         == Parsing(m.worker.value.phase.sha, m.worker.value.phase.version, upto)
  {
    hide FirstByKey;
  }

  /** What the gate is asked about the worker's run. */
  function Asked(env: Env, m: Machine): V.Verdict
    requires Working(m) && m.worker.value.phase.Parsed?
  {
    var w := m.worker.value;
    VerdictOn(env, w.cfg, w.phase.sha, Open(m.store.rows), StagedOf(m, w.run))
  }

  lemma {:induction false} VerdictStepLeads(env: Env, m: Machine)
    requires Working(m) && m.worker.value.phase.Parsed? && m.worker.value.phase.version < |m.store.versions|
    ensures var m', verdict := Step(env, m, ValidateRecords), Asked(env, m);
            && (verdict.Quarantine? ==> EndsAs(m, m', {RunQuarantined}))
            && (verdict.Hold? && !Me(m).options.dryRun ==> EndsAs(m, m', {RunHeld}))
            && (verdict.Pass? || (verdict.Hold? && Me(m).options.dryRun) ==>
                  Continues(m, m') && m'.worker.value.phase.Decided? && (m'.worker.value.phase.hold <==> verdict.Hold?))
  {
    hide VerdictOn;
  }

  lemma {:induction false} DryRunStepLeads(env: Env, m: Machine)
    requires Working(m) && m.worker.value.phase.Decided? && Me(m).options.dryRun
    ensures EndsAs(m, Step(env, m, FinishDryRun), {DryRunOk})
  {
    hide MarkVersion;
  }

  lemma {:induction false} PublishStepLeads(env: Env, m: Machine)
    requires MachineOk(env, m) && Publishes(m, DiffPublish)
    ensures EndsAs(m, Step(env, m, DiffPublish), {Succeeded})
  {
    hide MachineOk, Step;
    PublishStep(env, m, DiffPublish);
  }

  /** A job that ended in a completed status ended as the atomic ingest. */
  lemma {:induction false} CompletedIsFate(env: Env, job: Job, m: Machine, m': Machine, statuses: set<RunStatus>)
    requires MachineOk(env, m) && InFlight(env, job, m) && EndsAs(m, m', statuses)
    requires InFlight(env, job, m') || Ended(env, job, m, m')
    requires statuses <= {Succeeded, RunHeld, RunQuarantined, DryRunOk} && m.worker.value.run == job.root
    ensures Ending(m'.runs[m.worker.value.run].status, ListingOf(m'.store)) == Fate(env, job, ListingOf(m.store))
  {
    hide MachineOk, DataStill, FateOn, ListingOf, PhaseFits, InChain, Checkpoint;
    WorkerHolds(env, job, m);
  }

  lemma {:induction false} ContinuesInFlight(env: Env, job: Job, m: Machine, m': Machine)
    requires Continues(m, m') && (InFlight(env, job, m') || Ended(env, job, m, m'))
    ensures InFlight(env, job, m')
  {
    hide InFlight, FateOn, ListingOf;
  }

  // ---------------------------------------------------------------------------------------------
  // Measuring the staged list
  // ---------------------------------------------------------------------------------------------

  /** The fill rates of the configured floors. */
  method MeasureFills(floors: seq<V.Floor>, metrics: M.VersionMetrics, ghost docs: seq<Doc>) returns (fills: seq<V.Fill>)
    requires M.Counted(metrics.Contents(), M.SourceFields, docs)
    ensures fills == FillsOf(floors, docs)
  {
    hide M.Counted, M.FillRate, M.SourceFields;
    fills := [];
    for i := 0 to |floors|
      invariant fills == FillsOf(floors[..i], docs)
    {
      var rate := metrics.FillRateOf(M.SourceFields, docs, floors[i].entityType, floors[i].name);
      fills := fills + [V.Fill(rate, floors[i].least)];
    }
    assert floors[..|floors|] == floors;
  }

  /** What the checked identifiers, places and dates of the list come to. */
  lemma {:induction false} CountersRead(c: M.Counters, docs: seq<Doc>)
    requires M.Counted(c, M.SourceFields, docs)
    ensures c.imoSeen == M.Total(M.SourceFields, M.ImoSeen, docs) && c.imoValid == M.Total(M.SourceFields, M.ImoValid, docs)
    ensures c.leiSeen == M.Total(M.SourceFields, M.LeiSeen, docs) && c.leiValid == M.Total(M.SourceFields, M.LeiValid, docs)
    ensures c.unmapped == M.Total(M.SourceFields, M.UnmappedValues, docs)
    ensures M.Lookup(c.dob, Some(Unparsed)) == M.Total(M.SourceFields, M.DobPrecision(Some(Unparsed)), docs)
  {
    hide M.Total, M.SourceFields;
    assert M.Value(c, M.ImoSeen) == M.Total(M.SourceFields, M.ImoSeen, docs);
    assert M.Value(c, M.ImoValid) == M.Total(M.SourceFields, M.ImoValid, docs);
    assert M.Value(c, M.LeiSeen) == M.Total(M.SourceFields, M.LeiSeen, docs);
    assert M.Value(c, M.LeiValid) == M.Total(M.SourceFields, M.LeiValid, docs);
    assert M.Value(c, M.UnmappedValues) == M.Total(M.SourceFields, M.UnmappedValues, docs);
    assert M.Value(c, M.DobPrecision(Some(Unparsed))) == M.Total(M.SourceFields, M.DobPrecision(Some(Unparsed)), docs);
  }

  /** Fold the metrics over the staged list. */
  method MeasureQuality(env: Env, cfg: Settings, sha: Sha, staged: seq<Rec>) returns (q: V.Quality)
    ensures q == QualityOf(env, cfg, sha, staged)
  {
    hide M.Total, M.Counted, M.SourceFields, DocsOf;
    var docs, stats := DocsOf(staged), env.stats(cfg.reader, sha);
    var m := M.Compute(M.SourceFields, docs);
    CountersRead(m.Contents(), docs);
    var fills := MeasureFills(cfg.gate.floors, m, docs);
    var seen := |env.records(cfg.reader, sha)|;
    var duplicates := if |staged| <= seen then seen - |staged| else 0;
    var badImo := if m.imoValid < m.imoTotal then m.imoTotal - m.imoValid else 0;
    var badLei := if m.leiValid < m.leiTotal then m.leiTotal - m.leiValid else 0;
    q := V.Quality(|staged|, stats.skipped, duplicates, stats.warnings, stats.unknownPaths, fills, badImo, badLei, m.unmapped,
                   M.Lookup(m.dobPrecision, Some(Unparsed)));
  }

  /** Measure and ask the gate: its answer is the verdict of the state machine. */
  method AskGate(env: Env, cfg: Settings, sha: Sha, open: map<Key, Doc>, staged: seq<Rec>) returns (verdict: V.Verdict)
    ensures verdict == VerdictOn(env, cfg, sha, open, staged)
  {
    hide Preview, AsMap, V.Judge, QualityOf;
    var q := MeasureQuality(env, cfg, sha, staged);
    var res := V.ValidateData(cfg.gate, q, Some(Preview(open, AsMap(staged))));
    verdict := res.outcome;
  }

  class IngestRunner {
    var m: Machine

    constructor (start: Machine)
      ensures m == start
    {
      m := start;
    }

    method ListIngest(env: Env, response: Response) returns (status: RunStatus)
      requires MachineOk(env, m) && Working(m) && m.worker.value.phase.Fetching? && m.worker.value.cfg == m.cfg
      modifies this
      ensures MachineOk(env, m) && m.worker.None? && old(m.worker.value.run) < |m.runs|
      ensures status == m.runs[old(m.worker.value.run)].status
      ensures var got := Step(env, old(m), Acquire(old(m), response));
              if got.worker.Some? then
                && (Checkpoint(old(m.runs), old(Me(m))).Some? || response.Body?)
                && Ending(status, ListingOf(m.store)) == Fate(env, JobOf(old(m), response), ListingOf(got.store))
              else m == got && status in EarlyEnd(old(m), response)
    {
      hide MachineOk, InFlight, Step, Checkpoint, Fate, ListingOf;
      var r, event := m.worker.value.run, Acquire(m, response);
      if Checkpoint(m.runs, m.runs[r]).Some? {
        ReuseLeads(env, m, response);
      } else {
        FetchLeads(env, m, response);
      }
      StepKeepsMachineOk(env, m, event);
      m := Step(env, m, event);
      if m.worker.None? {
        return m.runs[r].status;
      }
      status := Process(env, JobOf(old(m), response));
    }

    /** A transaction after which the run goes on. */
    method Take(env: Env, ghost job: Job, e: Event)
      requires MachineOk(env, m) && InFlight(env, job, m) && OfWorker(e) && !e.StagingFailed? && Continues(m, Step(env, m, e)) && !Publishes(m, e)
      modifies this
      ensures m == Step(env, old(m), e) && MachineOk(env, m) && InFlight(env, job, m)
      ensures ListingOf(m.store) == ListingOf(old(m).store)
    {
      hide MachineOk, InFlight, Ended, Step, Continues;
      Advance(env, job, m, e);
      ContinuesInFlight(env, job, m, Step(env, m, e));
      QuietStep(env, m, e);
      m := Step(env, m, e);
    }

    /** The transaction that ends the run. */
    method End(env: Env, ghost job: Job, e: Event, ghost statuses: set<RunStatus>) returns (status: RunStatus)
      requires MachineOk(env, m) && InFlight(env, job, m) && OfWorker(e) && !e.StagingFailed? && EndsAs(m, Step(env, m, e), statuses)
      requires statuses <= {Succeeded, RunHeld, RunQuarantined, DryRunOk} && m.worker.value.run == job.root
      modifies this
      ensures MachineOk(env, m) && m.worker.None? && old(m.worker.value.run) < |m.runs|
      ensures status == m.runs[old(m.worker.value.run)].status
      ensures Ending(status, ListingOf(m.store)) == Fate(env, job, ListingOf(old(m).store))
    {
      hide MachineOk, InFlight, Ended, Step, Fate, ListingOf;
      var r := m.worker.value.run;
      Advance(env, job, m, e);
      CompletedIsFate(env, job, m, Step(env, m, e), statuses);
      m := Step(env, m, e);
      status := m.runs[r].status;
    }

    /** From the archived file to the end of the run. */
    method Process(env: Env, ghost job: Job) returns (status: RunStatus)
      requires MachineOk(env, m) && Working(m) && m.worker.value.phase.Archived? && InFlight(env, job, m)
      requires m.worker.value.run == job.root
      modifies this
      ensures MachineOk(env, m) && m.worker.None? && old(m.worker.value.run) < |m.runs|
      ensures status == m.runs[old(m.worker.value.run)].status
      ensures Ending(status, ListingOf(m.store)) == Fate(env, job, ListingOf(old(m).store))
    {
      hide MachineOk, InFlight, Step, Fate, ListingOf;
      FileStepLeads(env, m);
      Take(env, job, ValidateFile);
      if m.worker.value.phase.FileRejected? {
        FailStepLeads(env, m);
        status := End(env, job, FailData, {RunQuarantined});
        return;
      }
      var parsed := Parse(env, job);
      if !parsed {
        FailStepLeads(env, m);
        status := End(env, job, FailData, {RunQuarantined});
        return;
      }
      status := Conclude(env, job);
    }

    /** From the staged list to the end of the run: ask the gate, then publish, hold, quarantine or report the dry run. */
    method Conclude(env: Env, ghost job: Job) returns (status: RunStatus)
      requires MachineOk(env, m) && Working(m) && m.worker.value.phase.Parsed? && InFlight(env, job, m)
      requires m.worker.value.run == job.root
      modifies this
      ensures MachineOk(env, m) && m.worker.None? && old(m.worker.value.run) < |m.runs|
      ensures status == m.runs[old(m.worker.value.run)].status
      ensures Ending(status, ListingOf(m.store)) == Fate(env, job, ListingOf(old(m).store))
    {
      hide MachineOk, InFlight, Step, Fate, ListingOf;
      var w := m.worker.value;
      var dryRun := m.runs[w.run].options.dryRun;
      var verdict := AskGate(env, w.cfg, w.phase.sha, Open(m.store.rows), StagedOf(m, w.run));
      VersionExists(env, m);
      VerdictStepLeads(env, m);
      if verdict.Quarantine? {
        status := End(env, job, ValidateRecords, {RunQuarantined});
        return;
      }
      if verdict == V.Hold && !dryRun {
        status := End(env, job, ValidateRecords, {RunHeld});
        return;
      }
      Take(env, job, ValidateRecords);
      if dryRun {
        DryRunStepLeads(env, m);
        status := End(env, job, FinishDryRun, {DryRunOk});
        return;
      }
      PublishStepLeads(env, m);
      status := End(env, job, DiffPublish, {Succeeded});
    }

    /** The parse loop: flush a batch at a time, then the checkpoint; false when the parser raises. */
    method Parse(env: Env, ghost job: Job) returns (parsed: bool)
      requires MachineOk(env, m) && Working(m) && m.worker.value.phase.FileChecked? && InFlight(env, job, m)
      modifies this
      ensures MachineOk(env, m) && InFlight(env, job, m) && Continues(old(m), m) && ListingOf(m.store) == ListingOf(old(m).store)
      ensures parsed ==> m.worker.value.phase.Parsed?
      ensures !parsed ==> m.worker.value.phase.Parsing? && !env.parses(m.worker.value.cfg.reader, m.worker.value.phase.sha)
    {
      hide MachineOk, InFlight, Step, Fate, ListingOf;
      var sha, v := m.worker.value.phase.sha, m.worker.value.phase.version;
      ParseStepsLead(env, m);
      Take(env, job, StartParse);
      var reader := m.worker.value.cfg.reader;
      var upto, total := 0, |env.records(reader, sha)|;
      while upto < total
        invariant upto <= total && MachineOk(env, m) && InFlight(env, job, m) && Continues(old(m), m)
        invariant m.worker.value.phase == Parsing(sha, v, upto) && m.worker.value.cfg.reader == reader
        invariant ListingOf(m.store) == ListingOf(old(m).store)
      {
        upto := if upto + BATCH < total then upto + BATCH else total;
        FlushStepLeads(env, m, upto);
        Take(env, job, FlushBatch(upto));
      }
      parsed := env.parses(reader, sha);
      if parsed {
        ParseStepsLead(env, m);
        Take(env, job, FinishParse);
      }
    }
  }

  lemma {:induction false} VersionExists(env: Env, m: Machine)
    requires MachineOk(env, m) && Working(m) && m.worker.value.phase.Parsed?
    ensures m.worker.value.phase.version < |m.store.versions|
  {
    ParsedFacts(env, m);
  }
}
