/**
 The dates inside the published files. The file check compares a file with the version live at that time; over whole
 histories, held versions and releases included, no publication ever replaces a later date by an earlier one.
 */
module PublicationDates {
  import opened Base
  import opened ListStore
  import opened Staging
  import opened RunQueue
  import opened Pipeline
  import opened PipelineInvariant
  import opened PipelineSteps
  import opened PipelineTheorems
  import opened HeldVersions
  import opened Stranding
  import opened Gates

  /** Dates in order; a file without a date is in order with any. */
  predicate InOrder(a: Option<int>, b: Option<int>) { a.Some? && b.Some? ==> a.value <= b.value }

  function StampOf(st: Store, v: nat): Option<int> { if v < |st.versions| then st.versions[v].stamp else None }

  function LiveStamp(st: Store): Option<int> { if st.current.Some? then StampOf(st, st.current.value) else None }

  /** The date of the version with this sequence number. */
  function StampAt(st: Store, seqNo: nat): Option<int> { if 1 <= seqNo then StampOf(st, seqNo - 1) else None }

  /** The version of a file that passed the file check and is on its way. */
  function CheckedVersion(p: Phase): Option<nat> {
    match p
    case FileChecked(_, v) => Some(v)
    case Parsing(_, v, _) => Some(v)
    case Parsed(_, v) => Some(v)
    case Decided(_, v, _) => Some(v)
    case _ => None
  }

  ghost predicate NotBehind(st: Store, v: nat) { v < |st.versions| && InOrder(LiveStamp(st), st.versions[v].stamp) }

  /** What is on its way to being published is not behind what is live. */
  ghost predicate WorkerNotBehind(m: Machine) {
    m.worker.Some? && CheckedVersion(m.worker.value.phase).Some? ==> NotBehind(m.store, CheckedVersion(m.worker.value.phase).value)
  }

  ghost predicate HeldNotBehind(m: Machine) {
    forall v: nat :: IsHeld(m, v) && CanRelease(m, v) ==> NotBehind(m.store, v)
  }

  /** Each publication's date is in order with the one it replaced. */
  ghost predicate LogInOrder(st: Store) {
    forall i, j :: 0 <= i < j < |st.log| && j == i + 1 ==> InOrder(StampAt(st, st.log[i].seqNo), StampAt(st, st.log[j].seqNo))
  }

  ghost predicate DatesOk(m: Machine) { WorkerNotBehind(m) && HeldNotBehind(m) && LogInOrder(m.store) }

  // ---------------------------------------------------------------------------------------------
  // A publish
  // ---------------------------------------------------------------------------------------------

  /** A publish, of an ingest or of a release, replaces no later date. */
  lemma {:induction false} PublishInOrder(env: Env, m: Machine, e: Event)
    requires MachineOk(env, m) && DatesOk(m) && Publishes(m, e)
    ensures NotBehind(m.store, PublishedVersion(m))
  {
    if m.worker.value.phase.Releasing? {
      ReleasingIsHeld(env, m);
    }
    hide MachineOk, NotBehind, IsHeld, CanRelease;
  }

  lemma {:induction false} ReleasingIsHeld(env: Env, m: Machine)
    requires MachineOk(env, m) && Working(m) && m.worker.value.phase.Releasing?
    ensures Me(m).kind.ReleaseHeld? && IsHeld(m, Me(m).kind.version) && CanRelease(m, Me(m).kind.version)
  {
    ReleasingFacts(env, m);
    hide MachineOk, TablesOk;
    ReleaseStillHeld(env, m, m.worker.value.run, Me(m).kind.version);
  }

  lemma {:induction false} ReleasingFacts(env: Env, m: Machine)
    requires MachineOk(env, m) && Working(m) && m.worker.value.phase.Releasing?
    ensures TablesOk(env, m) && Me(m).kind.ReleaseHeld? && Me(m).status == Running
  {
    hide TablesOk;
  }

  /** Publishing changes no version's date. */
  lemma {:induction false} PublishKeepsStamps(env: Env, m: Machine, e: Event)
    requires MachineOk(env, m) && Publishes(m, e)
    ensures var st' := Step(env, m, e).store;
            && PublishedVersion(m) < |m.store.versions| == |st'.versions|
            && forall v :: 0 <= v < |st'.versions| ==> st'.versions[v].stamp == m.store.versions[v].stamp
  {
    hide MachineOk, Step, PublishedVersion, ExpireProposals;
    PublishedTables(env, m, e);
  }

  lemma {:induction false} LastLogIsLive(env: Env, m: Machine)
    requires MachineOk(env, m)
    ensures m.store.log != [] ==> StampAt(m.store, m.store.log[|m.store.log| - 1].seqNo) == LiveStamp(m.store)
    ensures forall v :: 0 <= v < |m.store.versions| ==> m.store.versions[v].seqNo == v + 1
    ensures forall i :: 0 <= i < |m.store.log| ==> 1 <= m.store.log[i].seqNo <= |m.store.versions|
  {
    VersionsAreOk(env, m);
    assert LogOk(m.store.log, Pub(m.store)) && LogLinked(env, m.store.log, m.store.versions, m.runs);
    hide MachineOk;
  }

  lemma {:induction false} PublishKeepsLog(env: Env, m: Machine, e: Event)
    requires MachineOk(env, m) && DatesOk(m) && Publishes(m, e)
    ensures LogInOrder(Step(env, m, e).store)
  {
    hide MachineOk, Step, PublishedVersion, Content, Publishes, WorkerNotBehind, HeldNotBehind;
    LogStep(env, m, e);
    PublishKeepsStamps(env, m, e);
    PublishInOrder(env, m, e);
    LastLogIsLive(env, m);
  }

  // ---------------------------------------------------------------------------------------------
  // Everything else
  // ---------------------------------------------------------------------------------------------

  lemma {:induction false} OthersKeepPublished(env: Env, m: Machine, e: Event)
    requires MachineOk(env, m) && !Publishes(m, e)
    ensures SamePublished(m.store, Step(env, m, e).store)
  {
    hide MachineOk, Step, Publishes, Resolves;
    if Resolves(m, e) {
      ResolveShape(env, m, e);
      ResolvesSame(env, m, e);
    } else {
      QuietStep(env, m, e);
    }
  }

  lemma {:induction false} ResolvesSame(env: Env, m: Machine, e: Event)
    requires Resolves(m, e)
    ensures SamePublished(m.store, Step(env, m, e).store)
  {
    hide MayReview;
  }

  lemma {:induction false} StaysNotBehind(env: Env, m: Machine, st': Store, v: nat)
    requires MachineOk(env, m) && SamePublished(m.store, st') && NotBehind(m.store, v)
    ensures NotBehind(st', v)
  {
    VersionsAreOk(env, m);
    hide MachineOk;
  }

  /** The worker goes on with the version it has, ends, or takes up one the file check has just accepted. */
  lemma {:induction false} WorkerGoesOn(env: Env, m: Machine, e: Event)
    requires Working(m) && OfWorker(e) && !Publishes(m, e)
    ensures var m', now := WorkerStep(env, m, e), CheckedVersion(m.worker.value.phase);
            m'.worker.Some? && CheckedVersion(m'.worker.value.phase).Some? ==>
              CheckedVersion(m'.worker.value.phase) == now || (e.ValidateFile? && m.worker.value.phase.Archived?)
  {
    hide VerdictOn, FirstByKey, MaxSeq, FileGood, Checkpoint, CloseVersion, MarkVersion, Publish, SameAsPublished, PendingSame, Cancellable;
  }

  lemma {:induction false} AcceptedIsNotBehind(env: Env, m: Machine)
    requires MachineOk(env, m) && Working(m) && m.worker.value.phase.Archived?
    ensures WorkerNotBehind(Step(env, m, ValidateFile))
  {
    hide *;
    VersionsAreOk(env, m);
    ValidateFileIff(env, m);
    NewVersionDated(env, m);
    AcceptedInOrder(env, m, Step(env, m, ValidateFile));
  }

  lemma {:induction false} NewVersionDated(env: Env, m: Machine)
    requires Working(m) && m.worker.value.phase.Archived?
    ensures var w, st' := m.worker.value, Step(env, m, ValidateFile).store;
            && st'.current == m.store.current && |st'.versions| == |m.store.versions| + 1
            && (forall i :: 0 <= i < |m.store.versions| ==> st'.versions[i] == m.store.versions[i])
            && st'.versions[|m.store.versions|].stamp == DateRead(env, w.cfg.reader, w.phase.sha)
  {
    hide FileGood, MaxSeq, DateRead;
  }

  lemma {:induction false} AcceptedInOrder(env: Env, m: Machine, m': Machine)
    requires VersionsOk(m.store.versions, m.store.current) && Working(m) && m.worker.value.phase.Archived?
    requires var w := m.worker.value;
             var sha, header, reader, v := w.phase.sha, w.phase.header, w.cfg.reader, |m.store.versions|;
             && (m'.worker == Some(w.(phase := FileRejected(sha, v)))
                 || (m'.worker == Some(w.(phase := FileChecked(sha, v)))
                     && env.fileOk(reader, sha) && !OlderThanLive(m.store, env.stamp(reader, sha))))
             && m'.store.current == m.store.current && |m'.store.versions| == v + 1
             && (forall i :: 0 <= i < v ==> m'.store.versions[i] == m.store.versions[i])
             && m'.store.versions[v].stamp == DateRead(env, reader, sha)
    ensures WorkerNotBehind(m')
  {
  }

  lemma {:induction false} WorkerStaysNotBehind(env: Env, m: Machine, e: Event)
    requires MachineOk(env, m) && WorkerNotBehind(m) && !Publishes(m, e)
    ensures WorkerNotBehind(Step(env, m, e))
  {
    OthersKeepPublished(env, m, e);
    if OfWorker(e) && Working(m) {
      if e.ValidateFile? && m.worker.value.phase.Archived? {
        AcceptedIsNotBehind(env, m);
      } else {
        WorkerGoesOn(env, m, e);
        hide MachineOk, WorkerStep, NotBehind;
        if CheckedVersion(m.worker.value.phase).Some? {
          StaysNotBehind(env, m, Step(env, m, e).store, CheckedVersion(m.worker.value.phase).value);
        }
      }
    } else {
      TableKeepsWorker(env, m, e);
      hide MachineOk, Step, NotBehind;
      if m.worker.Some? && CheckedVersion(m.worker.value.phase).Some? {
        StaysNotBehind(env, m, Step(env, m, e).store, CheckedVersion(m.worker.value.phase).value);
      }
    }
  }

  lemma {:induction false} TableKeepsWorker(env: Env, m: Machine, e: Event)
    requires !(OfWorker(e) && Working(m))
    ensures Step(env, m, e).worker == m.worker
            || (Step(env, m, e).worker.Some? && CheckedVersion(Step(env, m, e).worker.value.phase).None?)
  {
    hide Reclaim, Enqueue, Busy, BeatRun, CancelRun, HoldsVersion, Assess, Resolve, MayReview;
  }

  lemma {:induction false} HeldStaysNotBehind(env: Env, m: Machine, e: Event)
    requires MachineOk(env, m) && DatesOk(m)
    ensures HeldNotBehind(Step(env, m, e))
  {
    forall v: nat | IsHeld(Step(env, m, e), v) && CanRelease(Step(env, m, e), v) ensures NotBehind(Step(env, m, e).store, v) {
      hide *;
      ReleasableIsNotBehind(env, m, e, v);
    }
  }

  lemma {:induction false} ReleasableIsNotBehind(env: Env, m: Machine, e: Event, v: nat)
    requires MachineOk(env, m) && DatesOk(m) && IsHeld(Step(env, m, e), v) && CanRelease(Step(env, m, e), v)
    ensures NotBehind(Step(env, m, e).store, v)
  {
    hide *;
    if IsHeld(m, v) {
      ReleasableBefore(env, m, e, v);
      HeldIsNotBehind(m, v);
    } else {
      BecomesHeld(env, m, e, v);
      HoldsIsNotBehind(env, m, e, v);
    }
    OthersKeepPublished(env, m, e);
    StaysNotBehind(env, m, Step(env, m, e).store, v);
  }

  /** A held version that can be released after the step could be before, and the step published nothing. */
  lemma {:induction false} ReleasableBefore(env: Env, m: Machine, e: Event, v: nat)
    requires MachineOk(env, m) && IsHeld(m, v) && IsHeld(Step(env, m, e), v) && CanRelease(Step(env, m, e), v)
    ensures CanRelease(m, v) && !Publishes(m, e)
  {
    hide MachineOk, Step, CanRelease, Publishes, Strands;
    if !CanRelease(m, v) {
      StepKeepsStranded(env, m, e, v);
    }
    if Publishes(m, e) {
      PublishedNotHeld(env, m, e);
      PublishStrandsNewer(env, m, e, v);
    }
  }

  lemma {:induction false} PublishedNotHeld(env: Env, m: Machine, e: Event)
    requires MachineOk(env, m) && Publishes(m, e)
    ensures !IsHeld(Step(env, m, e), PublishedVersion(m))
  {
    hide MachineOk, Step, PublishedVersion, ExpireProposals;
    PublishedTables(env, m, e);
  }

  lemma {:induction false} HeldIsNotBehind(m: Machine, v: nat)
    requires DatesOk(m) && IsHeld(m, v) && CanRelease(m, v)
    ensures NotBehind(m.store, v)
  {
    hide IsHeld, CanRelease, NotBehind, WorkerNotBehind, LogInOrder;
  }

  lemma {:induction false} HoldsIsNotBehind(env: Env, m: Machine, e: Event, v: nat)
    requires DatesOk(m) && Holds(env, m, e, v)
    ensures NotBehind(m.store, v) && !Publishes(m, e)
  {
    hide VerdictOn, NotBehind, HeldNotBehind, LogInOrder;
  }

  lemma {:induction false} OthersKeepLog(env: Env, m: Machine, e: Event)
    requires MachineOk(env, m) && LogInOrder(m.store) && !Publishes(m, e)
    ensures LogInOrder(Step(env, m, e).store)
  {
    hide MachineOk, Step, Publishes;
    OthersKeepPublished(env, m, e);
    LastLogIsLive(env, m);
  }

  // ---------------------------------------------------------------------------------------------
  // Histories
  // ---------------------------------------------------------------------------------------------

  lemma {:induction false} StepKeepsDatesOk(env: Env, m: Machine, e: Event)
    requires MachineOk(env, m) && DatesOk(m)
    ensures DatesOk(Step(env, m, e))
  {
    HeldStaysNotBehind(env, m, e);
    if Publishes(m, e) {
      PublishKeepsLog(env, m, e);
      PublishStep(env, m, e);
    } else {
      WorkerStaysNotBehind(env, m, e);
      OthersKeepLog(env, m, e);
    }
    hide MachineOk, Step, HeldNotBehind, LogInOrder, Publishes;
  }

  lemma {:induction false} ExecuteKeepsDatesOk(env: Env, source: SourceId, cfg: Settings, es: seq<Event>)
    ensures MachineOk(env, Execute(env, Start(source, cfg), es)) && DatesOk(Execute(env, Start(source, cfg), es))
  {
    hide MachineOk, DatesOk, Step;
    if es == [] {
      StartOk(env, source, cfg);
      StartDatesOk(source, cfg);
    } else {
      ExecuteKeepsDatesOk(env, source, cfg, es[..|es| - 1]);
      StepKeepsDatesOk(env, Execute(env, Start(source, cfg), es[..|es| - 1]), es[|es| - 1]);
      StepKeepsMachineOk(env, Execute(env, Start(source, cfg), es[..|es| - 1]), es[|es| - 1]);
    }
  }

  lemma {:induction false} StartDatesOk(source: SourceId, cfg: Settings)
    ensures DatesOk(Start(source, cfg))
  {
  }

  /**
   After every history, a publish that goes through, of an ingest or of a release, never replaces a dated version by a
   file with an earlier date.
   */
  lemma {:induction false} PublishedDateNeverFalls(env: Env, source: SourceId, cfg: Settings, es: seq<Event>, e: Event)
    requires Publishes(Execute(env, Start(source, cfg), es), e)
    ensures var st := Execute(env, Start(source, cfg), es).store;
            var st' := Execute(env, Start(source, cfg), es + [e]).store;
            && st'.current.Some? && st'.current.value < |st'.versions|
            && (st.current.Some? && st.current.value < |st.versions| ==>
                  var before, after := st.versions[st.current.value].stamp, st'.versions[st'.current.value].stamp;
                  before.Some? && after.Some? ==> before.value <= after.value)
  {
    var m := Execute(env, Start(source, cfg), es);
    assert (es + [e])[..|es|] == es;
    ExecuteKeepsDatesOk(env, source, cfg, es);
    PublishInOrder(env, m, e);
    PublishKeepsStamps(env, m, e);
    PublishStep(env, m, e);
    hide MachineOk, Step, Execute, Publishes, PublishedVersion, PublishEffect, DatesOk;
  }

  /** Where every published file is dated, the dates of the whole publication log never fall. */
  lemma {:induction false} DatesNeverFall(env: Env, source: SourceId, cfg: Settings, es: seq<Event>, i: nat, j: nat)
    requires var st := Execute(env, Start(source, cfg), es).store;
             i <= j < |st.log| && forall k :: 0 <= k < |st.log| ==> StampAt(st, st.log[k].seqNo).Some?
    ensures var st := Execute(env, Start(source, cfg), es).store;
            StampAt(st, st.log[i].seqNo).value <= StampAt(st, st.log[j].seqNo).value
    decreases j
  {
    hide MachineOk, Execute, StampAt;
    if i < j {
      DatesNeverFall(env, source, cfg, es, i, j - 1);
      ExecuteKeepsDatesOk(env, source, cfg, es);
    }
  }
}
