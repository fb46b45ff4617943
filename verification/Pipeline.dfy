/**
 One source's life as a state machine. Every event is one transaction of the runner, the queue, the review desk or
 the reclaimer; an event that the code would not perform in the current state leaves it unchanged. The worker
 is the volatile memory of the process executing the source's one running run; a crash erases it and nothing
 else. Run, version, candidate and proposal ids are positions in their tables.
 */
module Pipeline {
  import opened Base
  import opened Canonical
  import opened Scd2
  import opened ListStore
  import opened Staging
  import opened RunQueue
  import M = Metrics
  import V = Validation

  /** What the parser reports besides records. */
  datatype ParseStats = ParseStats(skipped: nat, warnings: seq<Option<V.Category>>, unknownPaths: nat)

  /**
   The adapter, as functions of who reads the archived bytes and of the bytes. A reader is one deployed code and
   adapter configuration; a parser fix or a changed adapter setting is another reader.
   */
  datatype Env = Env(
    records: (nat, Sha) -> seq<Rec>,          // what the parser yields
    parses: (nat, Sha) -> bool,               // false when the parser raises
    fileOk: (nat, Sha) -> bool,               // no FAIL issue from the adapter's file checks
    marker: (nat, Sha) -> bool,               // the file itself carries a publication marker
    stamp: (nat, Sha) -> Option<int>,         // publication date inside the file
    stats: (nat, Sha) -> ParseStats)

  /** What a process loads when it claims a run: the gate's configuration and the reader. */
  datatype Settings = Settings(gate: V.Config, reader: nat)

  datatype Phase =
    | Fetching
    | Archived(sha: Sha, header: bool)      // whether the response of this attempt's own fetch dated the file
    | FileRejected(sha: Sha, version: nat)
    | FileChecked(sha: Sha, version: nat)
    | Parsing(sha: Sha, version: nat, upto: nat)
    | Parsed(sha: Sha, version: nat)
    | Decided(sha: Sha, version: nat, hold: bool)
    | Releasing

  datatype Worker = Worker(run: nat, cfg: Settings, phase: Phase)

  datatype Machine = Machine(
    source: SourceId, active: bool, cfg: Settings, runs: seq<Run>, worker: Option<Worker>,
    archive: set<Sha>, staging: map<nat, seq<Rec>>, store: Store)

  datatype Event =
    | EnqueueIngest(options: Options, who: Actor, batch: nat, now: int, notBefore: int)
    | Claim(run: nat, worker: Actor, now: int, lease: nat)
    | Heartbeat(run: nat, worker: Actor, now: int, lease: nat)
    | RequestCancel(run: nat)
    | FetchFailed
    | NotModified
    | FetchAndArchive(sha: Sha, header: bool)
    | ReuseArchive
    | ValidateFile
    | FailData
    | StagingFailed
    | StartParse
    | FlushBatch(upto: nat)
    | FinishParse
    | ValidateRecords
    | FinishDryRun
    | DiffPublish
    | PublishHeld
    | StopCancelled
    | StopInternal
    | PurgeStaging(run: nat)
    | Crash
    | ReclaimRun(run: nat, now: int)
    | AssessRemoval(candidate: nat, evidence: bool, hits: bool, suspects: bool, who: Actor)
    | Decide(proposal: nat, reviewer: Actor, role: Role, approve: bool, resolution: Option<Resolution>, batch: nat, now: int)
    | SetActive(on: bool)
    | SetConfig(config: Settings)

  datatype Role = Viewer | Operator | Reviewer | Admin

  const VALIDATOR := Actor("system:validator")

  function Start(source: SourceId, cfg: Settings): Machine {
    Machine(source, false, cfg, [], None, {}, map[], EmptyStore)
  }

  // ---------------------------------------------------------------------------------------------
  // Helpers
  // ---------------------------------------------------------------------------------------------

  function Staged(staging: map<nat, seq<Rec>>, run: nat): seq<Rec> { if run in staging then staging[run] else [] }

  function StagedOf(m: Machine, run: nat): seq<Rec> { Staged(m.staging, run) }

  /** The staged list of an archived file, as a reader reads it. */
  function Content(env: Env, reader: nat, sha: Sha): seq<Rec> { FirstByKey(env.records(reader, sha)) }

  /** The staged list a version was made from. */
  function ContentOf(env: Env, ver: Version): seq<Rec> { Content(env, ver.reader, ver.sha) }

  function DocsOf(staged: seq<Rec>): seq<Doc> { seq(|staged|, i requires 0 <= i < |staged| => staged[i].doc) }

  function FillsOf(floors: seq<V.Floor>, docs: seq<Doc>): seq<V.Fill> {
    seq(|floors|, i requires 0 <= i < |floors| =>
      V.Fill(M.FillRate(M.SourceFields, docs, floors[i].entityType, floors[i].name), floors[i].least))
  }

  /** What the gate looks at: the parser's report and the metrics of the staged list. */
  function QualityOf(env: Env, cfg: Settings, sha: Sha, staged: seq<Rec>): V.Quality {
    var docs, stats, t := DocsOf(staged), env.stats(cfg.reader, sha), M.SourceFields;
    var seen := |env.records(cfg.reader, sha)|;
    V.Quality(
      |staged|, stats.skipped, if |staged| <= seen then seen - |staged| else 0, stats.warnings, stats.unknownPaths,
      FillsOf(cfg.gate.floors, docs),
      M.Shortfall(t, M.ImoSeen, M.ImoValid, docs), M.Shortfall(t, M.LeiSeen, M.LeiValid, docs),
      M.Total(t, M.UnmappedValues, docs), M.Total(t, M.DobPrecision(Some(Unparsed)), docs))
  }

  function VerdictOn(env: Env, cfg: Settings, sha: Sha, open: map<Key, Doc>, staged: seq<Rec>): V.Verdict {
    V.Judge(cfg.gate, QualityOf(env, cfg, sha, staged), Some(Preview(open, AsMap(staged))))
  }

  /**
   The file checks pass: nothing wrong inside, no older date than the published one, and a publication marker where
   one is required. The marker may come from the file or from the header of the attempt's own fetch.
   */
  predicate FileGood(env: Env, cfg: Settings, st: Store, sha: Sha, header: bool) {
    && env.fileOk(cfg.reader, sha) && !Regressed(st, env.stamp(cfg.reader, sha))
    && (cfg.gate.requireMarker ==> env.marker(cfg.reader, sha) || header)
  }

  /** The worker ends its run with `status`. */
  function Finish(m: Machine, status: RunStatus): Machine {
    if m.worker.Some? && m.worker.value.run < |m.runs| then
      m.(runs := m.runs[m.worker.value.run := FinishRun(m.runs[m.worker.value.run], status)], worker := None)
    else m
  }

  function At(m: Machine, phase: Phase): Machine {
    if m.worker.Some? then m.(worker := Some(m.worker.value.(phase := phase))) else m
  }

  function WithStore(m: Machine, store: Store): Machine { m.(store := store) }

  predicate Unfinished(s: VersionStatus) { s in {Candidate, Validated} }

  function MarkVersion(st: Store, v: nat, status: VersionStatus): Store {
    if v < |st.versions| then st.(versions := st.versions[v := st.versions[v].(status := status)]) else st
  }

  /** `UPDATE list_version SET status ... WHERE version_id = v AND status IN ('CANDIDATE','VALIDATED')`. */
  function CloseVersion(st: Store, v: nat, status: VersionStatus): Store {
    if v < |st.versions| && Unfinished(st.versions[v].status) then MarkVersion(st, v, status) else st
  }

  /** `UPDATE list_version SET status = 'REJECTED' WHERE run_id = run AND status IN (...)`. */
  function RejectVersionsOf(vs: seq<Version>, run: nat): seq<Version> {
    seq(|vs|, i requires 0 <= i < |vs| =>
      if vs[i].run == run && Unfinished(vs[i].status) then vs[i].(status := Rejected) else vs[i])
  }

  function MaxSeq(vs: seq<Version>): nat {
    if vs == [] then 0
    else
      var rest := MaxSeq(vs[..|vs| - 1]);
      if rest < vs[|vs| - 1].seqNo then vs[|vs| - 1].seqNo else rest
  }

  /** The version row the worker's run has created so far. */
  function WorkingVersion(p: Phase): Option<nat> {
    match p
    case Fetching => None
    case Archived(_, _) => None
    case FileRejected(_, v) => Some(v)
    case FileChecked(_, v) => Some(v)
    case Parsing(_, v, _) => Some(v)
    case Parsed(_, v) => Some(v)
    case Decided(_, v, _) => Some(v)
    case Releasing => None
  }

  /** The run row and phase of the live worker. */
  predicate Working(m: Machine) { m.worker.Some? && m.worker.value.run < |m.runs| }

  function Me(m: Machine): Run
    requires Working(m)
  {
    m.runs[m.worker.value.run]
  }

  /** The archived bytes a run starts from instead of fetching: its predecessor's checkpoint, else the requested re-parse. */
  function Checkpoint(runs: seq<Run>, r: Run): Option<Sha> {
    if r.resumedFrom.Some? && r.resumedFrom.value < |runs| && runs[r.resumedFrom.value].archived.Some?
    then runs[r.resumedFrom.value].archived
    else r.options.reparse
  }

  /** Index of the last version of this file that is still HELD or QUARANTINED. */
  function PendingSame(vs: seq<Version>, sha: Sha): Option<nat> {
    if vs == [] then None
    else
      var last := vs[|vs| - 1];
      if last.sha == sha && last.status in {Held, Quarantined} then Some(|vs| - 1)
      else PendingSame(vs[..|vs| - 1], sha)
  }

  predicate SameAsPublished(st: Store, sha: Sha) {
    exists i :: 0 <= i < |st.versions| && st.versions[i].status == Published && st.versions[i].sha == sha
  }

  /** The publication date inside the file went backwards against the published version. */
  predicate Regressed(st: Store, stamp: Option<int>) {
    exists i :: 0 <= i < |st.versions| && st.versions[i].status == Published
                && st.versions[i].stamp.Some? && stamp.Some? && stamp.value < st.versions[i].stamp.value
  }

  /** A file that fails the adapter's checks is not asked for its date. */
  function DateRead(env: Env, reader: nat, sha: Sha): Option<int> {
    if env.fileOk(reader, sha) then env.stamp(reader, sha) else None
  }

  // ---------------------------------------------------------------------------------------------
  // Steps of a running ingest
  // ---------------------------------------------------------------------------------------------

  function DoArchive(m: Machine, sha: Sha, header: bool): Machine
    requires Working(m)
  {
    var w, r := m.worker.value, Me(m);
    var m' := m.(archive := m.archive + {sha}, runs := m.runs[w.run := r.(archived := Some(sha))]);
    if r.options.forceRefetch || r.options.dryRun then At(m', Archived(sha, header))
    else if SameAsPublished(m.store, sha) then Finish(m', NoChange)
    else
      var p := PendingSame(m.store.versions, sha);
      if p.Some? && p.value < |m.store.versions| then
        Finish(m', if m.store.versions[p.value].status == Held then RunHeld else RunQuarantined)
      else At(m', Archived(sha, header))
  }

  function DoReuse(m: Machine): Machine
    requires Working(m) && Checkpoint(m.runs, Me(m)).Some?
  {
    var w, r, sha := m.worker.value, Me(m), Checkpoint(m.runs, Me(m)).value;
    if sha in m.archive then At(m.(runs := m.runs[w.run := r.(archived := Some(sha))]), Archived(sha, false))
    else Finish(m, Failed)
  }

  function DoValidateFile(env: Env, m: Machine, sha: Sha, header: bool): Machine
    requires Working(m)
  {
    var w := m.worker.value;
    var v := Version(MaxSeq(m.store.versions) + 1, w.run, sha, w.cfg.reader, DateRead(env, w.cfg.reader, sha), Candidate, 0, None);
    var m' := m.(store := m.store.(versions := m.store.versions + [v]));
    var id := |m.store.versions|;
    if FileGood(env, w.cfg, m.store, sha, header) then At(m', FileChecked(sha, id)) else At(m', FileRejected(sha, id))
  }

  function DoValidateRecords(env: Env, m: Machine, sha: Sha, v: nat): Machine
    requires Working(m)
  {
    var w, r := m.worker.value, Me(m);
    var staged := StagedOf(m, w.run);
    var verdict := VerdictOn(env, w.cfg, sha, Open(m.store.rows), staged);
    if v >= |m.store.versions| then m
    else
      var status := match verdict case Pass => Validated case Hold => Held case Quarantine(_) => Quarantined;
      var st := m.store.(versions := m.store.versions[v := m.store.versions[v].(status := status, recordCount := |staged|)]);
      match verdict
      case Quarantine(_) => Finish(WithStore(m, st), RunQuarantined)
      case Pass => At(WithStore(m, st), Decided(sha, v, false))
      case Hold =>
        if r.options.dryRun then At(WithStore(m, st), Decided(sha, v, true))
        else
          var p := Proposal(LargeChangeRelease(v), VALIDATOR, Awaiting, None);
          Finish(WithStore(m, st.(proposals := st.proposals + [p])), RunHeld)
  }

  /** An exception outside the expected ones: the unfinished version is rejected and the run fails. */
  function DoStopInternal(m: Machine): Machine
    requires Working(m)
  {
    var v := WorkingVersion(m.worker.value.phase);
    Finish(if v.Some? then WithStore(m, CloseVersion(m.store, v.value, Rejected)) else m, Failed)
  }

  function DoPublish(m: Machine, v: nat, staged: seq<Rec>, who: Option<Actor>): Machine
    requires Working(m)
  {
    match Publish(m.store, v, staged, m.worker.value.run, who)
    case Ok(st) => Finish(WithStore(m, st), Succeeded)
    case Err(_) => DoStopInternal(m)
  }

  function DoPublishHeld(m: Machine, v: nat): Machine
    requires Working(m)
  {
    if v >= |m.store.versions| || m.store.versions[v].status != Held then Finish(m, Failed)
    else
      var ver := m.store.versions[v];
      var staged := StagedOf(m, ver.run);
      if |staged| != ver.recordCount then Finish(m, Failed)
      else DoPublish(m, v, staged, Some(Me(m).requestedBy))
  }

  /** Cancellation is looked at between steps, never inside one and never once a release has started. */
  predicate Cancellable(m: Machine)
    requires Working(m)
  {
    && Me(m).cancelRequested && !m.worker.value.phase.Releasing? && !m.worker.value.phase.FileRejected?
    && !(m.worker.value.phase.Fetching? && Checkpoint(m.runs, Me(m)).Some?)
    && !(m.worker.value.phase.Decided? && Me(m).options.dryRun)
  }

  function DoStopCancelled(m: Machine): Machine
    requires Working(m)
  {
    var w := m.worker.value;
    var v := WorkingVersion(w.phase);
    var m' := if v.Some? then WithStore(m, CloseVersion(m.store, v.value, Rejected)) else m;
    Finish(m'.(staging := m'.staging - {w.run}), Cancelled)
  }

  // ---------------------------------------------------------------------------------------------
  // Reclaim and review
  // ---------------------------------------------------------------------------------------------

  function DoReclaim(m: Machine, r: nat, now: int): Machine
    requires r < |m.runs|
  {
    m.(runs := Reclaim(m.runs, r, m.active, now),
       store := m.store.(versions := RejectVersionsOf(m.store.versions, r)),
       staging := m.staging - {r})
  }

  predicate MayReview(p: Proposal, reviewer: Actor, role: Role) {
    p.status == Awaiting && role in {Reviewer, Admin} && p.proposedBy != reviewer
  }

  function CloseProposal(st: Store, p: nat, status: ProposalStatus, reviewer: Actor): Store {
    if p < |st.proposals| then
      st.(proposals := st.proposals[p := st.proposals[p].(status := status, reviewedBy := Some(reviewer))])
    else st
  }

  /** A reviewer's decision. An approved release only queues a run, and is refused while the source is busy. */
  function DoDecide(m: Machine, p: nat, reviewer: Actor, role: Role, approve: bool, resolution: Option<Resolution>,
                    batch: nat, now: int): Machine
    requires p < |m.store.proposals|
  {
    var prop := m.store.proposals[p];
    if !MayReview(prop, reviewer, role) then m
    else if !approve then WithStore(m, CloseProposal(m.store, p, Declined, reviewer))
    else
      match prop.subject
      case LargeChangeRelease(v) =>
        if Busy(m.runs, m.source) then m
        else
          var run := NewRun(m.source, ReleaseHeld(v), Options(false, false, None), reviewer, batch, now, now);
          m.(runs := m.runs + [run], store := CloseProposal(m.store, p, Applied, reviewer))
      case RemovalConfirmation(c, recommended) =>
        var res := if resolution.Some? then resolution.value else recommended;
        WithStore(m, CloseProposal(Resolve(m.store, c, res, reviewer), p, Applied, reviewer))
  }

  // ---------------------------------------------------------------------------------------------
  // The transition function
  // ---------------------------------------------------------------------------------------------

  function WorkerStep(env: Env, m: Machine, e: Event): Machine
    requires Working(m)
  {
    var w, r := m.worker.value, Me(m);
    match e
    case FetchFailed =>
      if w.phase.Fetching? && Checkpoint(m.runs, r).None? then Finish(m, Failed) else m
    case NotModified =>
      if w.phase.Fetching? && Checkpoint(m.runs, r).None? then Finish(m, NoChange) else m
    case FetchAndArchive(sha, header) =>
      if w.phase.Fetching? && Checkpoint(m.runs, r).None? then DoArchive(m, sha, header) else m
    case ReuseArchive =>
      if w.phase.Fetching? && Checkpoint(m.runs, r).Some? then DoReuse(m) else m
    case ValidateFile =>
      if w.phase.Archived? then DoValidateFile(env, m, w.phase.sha, w.phase.header) else m
    case FailData =>
      if w.phase.FileRejected? || (w.phase.Parsing? && !env.parses(w.cfg.reader, w.phase.sha))
      then Finish(WithStore(m, CloseVersion(m.store, w.phase.version, Quarantined)), RunQuarantined) else m
    // whatever the parse loop raises counts as a parser error, a failed write to staging included
    case StagingFailed =>
      if w.phase.Parsing? then Finish(WithStore(m, CloseVersion(m.store, w.phase.version, Quarantined)), RunQuarantined) else m
    case StartParse =>
      if w.phase.FileChecked? then At(m.(staging := m.staging[w.run := []]), Parsing(w.phase.sha, w.phase.version, 0)) else m
    case FlushBatch(upto) =>
      if w.phase.Parsing? && w.phase.upto < upto <= |env.records(w.cfg.reader, w.phase.sha)|
      then At(m.(staging := m.staging[w.run := FirstByKey(env.records(w.cfg.reader, w.phase.sha)[..upto])]), w.phase.(upto := upto))
      else m
    case FinishParse =>
      if w.phase.Parsing? && w.phase.upto == |env.records(w.cfg.reader, w.phase.sha)| && env.parses(w.cfg.reader, w.phase.sha)
      then At(m, Parsed(w.phase.sha, w.phase.version)) else m
    case ValidateRecords =>
      if w.phase.Parsed? then DoValidateRecords(env, m, w.phase.sha, w.phase.version) else m
    case FinishDryRun =>
      if w.phase.Decided? && r.options.dryRun
      then Finish(WithStore(m, MarkVersion(m.store, w.phase.version, Rejected)), DryRunOk) else m
    case DiffPublish =>
      if w.phase.Decided? && !r.options.dryRun && !w.phase.hold
      then DoPublish(m, w.phase.version, StagedOf(m, w.run), None) else m
    case PublishHeld =>
      if w.phase.Releasing? && r.kind.ReleaseHeld? then DoPublishHeld(m, r.kind.version) else m
    case StopCancelled => if Cancellable(m) then DoStopCancelled(m) else m
    case StopInternal => DoStopInternal(m)
    case Crash => m.(worker := None)
    case _ => m
  }

  function TableStep(m: Machine, e: Event): Machine {
    match e
    case EnqueueIngest(options, who, batch, now, notBefore) =>
      m.(runs := Enqueue(m.runs, NewRun(m.source, ListIngest, options, who, batch, now, notBefore)))
    case Claim(r, worker, now, lease) =>
      if r < |m.runs| && Claimable(m.runs[r], now) then
        m.(runs := m.runs[r := ClaimRun(m.runs[r], worker, now, lease)],
           worker := Some(Worker(r, m.cfg, if m.runs[r].kind.ListIngest? then Fetching else Releasing)))
      else m
    case Heartbeat(r, worker, now, lease) =>
      if r < |m.runs| then m.(runs := m.runs[r := BeatRun(m.runs[r], worker, now, lease)]) else m
    case RequestCancel(r) =>
      if r < |m.runs| then m.(runs := m.runs[r := CancelRun(m.runs[r])]) else m
    case PurgeStaging(r) =>
      if r < |m.runs| && !Active(m.runs[r].status) && !HoldsVersion(m.store.versions, r) then m.(staging := m.staging - {r}) else m
    case ReclaimRun(r, now) =>
      if r < |m.runs| && LeaseExpired(m.runs[r], now) && m.worker.None? then DoReclaim(m, r, now) else m
    case AssessRemoval(c, evidence, hits, suspects, who) =>
      WithStore(m, Assess(m.store, c, evidence, hits, suspects, who))
    case Decide(p, reviewer, role, approve, resolution, batch, now) =>
      if p < |m.store.proposals| then DoDecide(m, p, reviewer, role, approve, resolution, batch, now) else m
    case SetActive(on) => m.(active := on)
    case SetConfig(config) => m.(cfg := config)
    case _ => m
  }

  predicate HoldsVersion(vs: seq<Version>, run: nat) {
    exists i :: 0 <= i < |vs| && vs[i].run == run && vs[i].status == Held
  }

  /** One transaction. */
  function Step(env: Env, m: Machine, e: Event): Machine {
    if OfWorker(e) then (if Working(m) then WorkerStep(env, m, e) else m) else TableStep(m, e)
  }

  predicate OfWorker(e: Event) {
    e.FetchFailed? || e.NotModified? || e.FetchAndArchive? || e.ReuseArchive? || e.ValidateFile? || e.FailData? || e.StagingFailed?
    || e.StartParse? || e.FlushBatch? || e.FinishParse? || e.ValidateRecords? || e.FinishDryRun? || e.DiffPublish?
    || e.PublishHeld? || e.StopCancelled? || e.StopInternal? || e.Crash?
  }

  function Execute(env: Env, m: Machine, es: seq<Event>): Machine {
    if es == [] then m else Step(env, Execute(env, m, es[..|es| - 1]), es[|es| - 1])
  }
}
