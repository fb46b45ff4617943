/**
 What the pipeline guarantees over whole runs: nothing stops blocking without a reviewer, no mass removal goes
 live unreviewed, and a published list is always the content of one archived file.
 */
module PipelineTheorems {
  import opened Base
  import opened Canonical
  import opened Scd2
  import opened ListStore
  import opened ListStoreProofs
  import opened Staging
  import opened RunQueue
  import opened Pipeline
  import opened PipelineInvariant
  import opened PipelineSteps
  import V = Validation

  // ---------------------------------------------------------------------------------------------
  // The abstract list: what is listed, and what is held although it is gone
  // ---------------------------------------------------------------------------------------------

  datatype Listing = Listing(open: map<Key, Doc>, held: set<Key>)

  function ListingOf(st: Store): Listing { Listing(Open(st.rows), HoldingKeys(st.removals)) }

  /** One atomic ingest: the staged list replaces the open one, vanished keys are held, returned ones are not. */
  function Ingest(l: Listing, content: map<Key, Doc>): Listing {
    Listing(content, (l.held + l.open.Keys) - content.Keys)
  }

  function Release(l: Listing, k: Key): Listing { l.(held := l.held - {k}) }

  /** The event is a publish the code performs now. */
  predicate Publishes(m: Machine, e: Event) {
    && Working(m)
    && ((e.DiffPublish? && m.worker.value.phase.Decided? && !m.worker.value.phase.hold && !Me(m).options.dryRun)
        || (e.PublishHeld? && m.worker.value.phase.Releasing?))
  }

  /** The version a publish makes live. */
  function PublishedVersion(m: Machine): nat
    requires Working(m)
  {
    if m.worker.value.phase.Decided? then m.worker.value.phase.version
    else if Me(m).kind.ReleaseHeld? then Me(m).kind.version
    else 0
  }

  /** The event is a reviewer applying a removal proposal somebody else made. */
  predicate Resolves(m: Machine, e: Event) {
    && e.Decide? && e.proposal < |m.store.proposals| && e.approve
    && MayReview(m.store.proposals[e.proposal], e.reviewer, e.role)
    && m.store.proposals[e.proposal].subject.RemovalConfirmation?
  }

  function ResolutionOf(m: Machine, e: Event): Resolution
    requires Resolves(m, e)
  {
    if e.resolution.Some? then e.resolution.value else m.store.proposals[e.proposal].subject.recommendation
  }

  // ---------------------------------------------------------------------------------------------
  // Everything else leaves the published data alone
  // ---------------------------------------------------------------------------------------------

  /** No published data changed; existing versions keep who made them and from what. */
  ghost predicate SamePublished(st: Store, st': Store) {
    && st'.rows == st.rows && st'.log == st.log && st'.current == st.current && st'.crosslist == st.crosslist
    && |st.versions| <= |st'.versions|
    && (forall i :: 0 <= i < |st.versions| ==>
          st'.versions[i].sha == st.versions[i].sha && st'.versions[i].stamp == st.versions[i].stamp
          && st'.versions[i].run == st.versions[i].run && st'.versions[i].seqNo == st.versions[i].seqNo)
  }

  /** Nor did any removal change whether it holds its key. */
  ghost predicate SameHolds(rs: seq<Removal>, rs': seq<Removal>) {
    && |rs'| == |rs|
    && forall i :: 0 <= i < |rs| ==> rs'[i].key == rs[i].key && (Holding(rs'[i].status) <==> Holding(rs[i].status))
  }

  lemma {:induction false} SameHoldsKeys(rs: seq<Removal>, rs': seq<Removal>)
    requires SameHolds(rs, rs')
    ensures HoldingKeys(rs') == HoldingKeys(rs)
  {
    forall k | k in HoldingKeys(rs) ensures k in HoldingKeys(rs') {
      var j := HolderOf(rs, k);
      assert rs'[j].key == k;
    }
    forall k | k in HoldingKeys(rs') ensures k in HoldingKeys(rs) {
      var j := HolderOf(rs', k);
      assert rs[j].key == k;
    }
  }

  lemma {:induction false} QuietWorkerStep(env: Env, m: Machine, e: Event)
    requires Working(m) && OfWorker(e) && !Publishes(m, e)
    ensures SamePublished(m.store, WorkerStep(env, m, e).store) && WorkerStep(env, m, e).store.removals == m.store.removals
  {
    hide *;
    if e.ValidateRecords? {
      QuietVerdictStep(env, m);
    } else if e.StopInternal? || e.StopCancelled? {
      QuietStopStep(env, m, e);
    } else if e.ValidateFile? {
      QuietFileStep(env, m);
    } else if e.FailData? || e.StagingFailed? || e.FinishDryRun? {
      QuietCloseStep(env, m, e);
    } else {
      QuietOtherStep(env, m, e);
      SameIsQuiet(m.store);
    }
  }

  lemma {:induction false} SameIsQuiet(st: Store)
    ensures SamePublished(st, st)
  {
  }

  lemma {:induction false} QuietVerdictStep(env: Env, m: Machine)
    requires Working(m)
    ensures SamePublished(m.store, WorkerStep(env, m, ValidateRecords).store) && WorkerStep(env, m, ValidateRecords).store.removals == m.store.removals
  {
    hide DoValidateRecords;
    if m.worker.value.phase.Parsed? {
      QuietVerdict(env, m, m.worker.value.phase.sha, m.worker.value.phase.version);
    }
  }

  lemma {:induction false} QuietStopStep(env: Env, m: Machine, e: Event)
    requires Working(m) && (e.StopInternal? || e.StopCancelled?)
    ensures SamePublished(m.store, WorkerStep(env, m, e).store) && WorkerStep(env, m, e).store.removals == m.store.removals
  {
    hide DoStopInternal, DoStopCancelled, Cancellable;
    QuietStop(m);
  }

  lemma {:induction false} QuietFileStep(env: Env, m: Machine)
    requires Working(m)
    ensures SamePublished(m.store, WorkerStep(env, m, ValidateFile).store) && WorkerStep(env, m, ValidateFile).store.removals == m.store.removals
  {
    hide MaxSeq, FileGood;
  }

  lemma {:induction false} QuietCloseStep(env: Env, m: Machine, e: Event)
    requires Working(m) && (e.FailData? || e.StagingFailed? || e.FinishDryRun?)
    ensures SamePublished(m.store, WorkerStep(env, m, e).store) && WorkerStep(env, m, e).store.removals == m.store.removals
  {
    hide CloseVersion, MarkVersion;
    forall v, status ensures QuietlyMarked(m.store, CloseVersion(m.store, v, status)) && QuietlyMarked(m.store, MarkVersion(m.store, v, status)) {
      QuietMark(m.store, v, status);
    }
  }

  ghost predicate QuietlyMarked(st: Store, st': Store) { SamePublished(st, st') && st'.removals == st.removals }

  lemma {:induction false} QuietMark(st: Store, v: nat, status: VersionStatus)
    ensures QuietlyMarked(st, CloseVersion(st, v, status)) && QuietlyMarked(st, MarkVersion(st, v, status))
  {
  }

  lemma {:induction false} QuietOtherStep(env: Env, m: Machine, e: Event)
    requires Working(m) && OfWorker(e) && !Publishes(m, e) && !e.ValidateRecords? && !e.StopInternal? && !e.StopCancelled?
    requires !e.ValidateFile? && !e.FailData? && !e.StagingFailed? && !e.FinishDryRun?
    ensures WorkerStep(env, m, e).store == m.store
  {
    hide DoPublish, DoPublishHeld, FirstByKey, Checkpoint, DoArchive, DoReuse;
    QuietFetch(m, e);
  }

  /** Archived bytes change no table. */
  lemma {:induction false} QuietFetch(m: Machine, e: Event)
    requires Working(m)
    ensures e.FetchAndArchive? ==> DoArchive(m, e.sha, e.header).store == m.store
    ensures Checkpoint(m.runs, Me(m)).Some? ==> DoReuse(m).store == m.store
  {
    hide SameAsPublished, PendingSame, Checkpoint;
  }

  lemma {:induction false} QuietStop(m: Machine)
    requires Working(m)
    ensures SamePublished(m.store, DoStopInternal(m).store) && DoStopInternal(m).store.removals == m.store.removals
    ensures SamePublished(m.store, DoStopCancelled(m).store) && DoStopCancelled(m).store.removals == m.store.removals
  {
  }

  lemma {:induction false} QuietVerdict(env: Env, m: Machine, sha: Sha, v: nat)
    requires Working(m)
    ensures SamePublished(m.store, DoValidateRecords(env, m, sha, v).store)
    ensures DoValidateRecords(env, m, sha, v).store.removals == m.store.removals
  {
    hide VerdictOn;
  }

  lemma {:induction false} QuietTableStep(m: Machine, e: Event)
    requires !OfWorker(e) && !Resolves(m, e)
    ensures SamePublished(m.store, TableStep(m, e).store) && SameHolds(m.store.removals, TableStep(m, e).store.removals)
  {
    hide Reclaim, Enqueue, Busy, BeatRun, CancelRun, HoldsVersion, AwaitingConfirmation;
  }

  /** An event that neither publishes nor resolves changes nothing a screening user could see. */
  lemma {:induction false} QuietStep(env: Env, m: Machine, e: Event)
    requires MachineOk(env, m) && !Publishes(m, e) && !Resolves(m, e)
    ensures SamePublished(m.store, Step(env, m, e).store) && SameHolds(m.store.removals, Step(env, m, e).store.removals)
    ensures ListingOf(Step(env, m, e).store) == ListingOf(m.store)
  {
    var st' := Step(env, m, e).store;
    if OfWorker(e) && Working(m) {
      QuietWorkerStep(env, m, e);
    } else if !OfWorker(e) {
      QuietTableStep(m, e);
    }
    hide MachineOk, Step;
    SameHoldsKeys(m.store.removals, st'.removals);
  }

  // ---------------------------------------------------------------------------------------------
  // Refinement
  // ---------------------------------------------------------------------------------------------

  /** On the store, a publish is one atomic ingest of the staged list. */
  lemma {:induction false} PublishIsIngest(st: Store, v: nat, recs: seq<Rec>, run: nat, who: Option<Actor>)
    requires StoreOk(st) && Publishable(st, v) && DistinctKeys(recs)
    ensures ListingOf(PublishEffect(st, v, recs, run, who)) == Ingest(ListingOf(st), AsMap(recs))
  {
    var st', staged := PublishEffect(st, v, recs, run, who), AsMap(recs);
    PublishKeepsStoreOk(st, v, recs, run, who);
    PublishNeverUnblocks(st, v, recs, run, who);
    assert RemovalsOk(st'.removals, st'.rows, Open(st'.rows));
    hide StoreOk, PublishEffect;
    forall k | k in HoldingKeys(st'.removals) ensures k !in staged {
      var j := HolderOf(st'.removals, k);
    }
  }

  /** Who released, when the publishing run is a release. */
  function Releaser(m: Machine): Option<Actor>
    requires Working(m)
  {
    if m.worker.value.phase.Releasing? then Some(Me(m).requestedBy) else None
  }

  /**
   A publishing step is never refused: it makes exactly the content of its version's archived file current, in one
   step, and ends its run as succeeded.
   */
  lemma {:induction false} PublishStep(env: Env, m: Machine, e: Event)
    requires MachineOk(env, m) && Publishes(m, e)
    ensures PublishedVersion(m) < |m.store.versions|
    ensures var v, m' := PublishedVersion(m), Step(env, m, e);
            var recs := ContentOf(env, m.store.versions[v]);
            && m'.store == PublishEffect(m.store, v, recs, m.worker.value.run, Releaser(m))
            && m'.runs == m.runs[m.worker.value.run := FinishRun(Me(m), Succeeded)] && m'.worker.None?
            && m'.store.current == Some(v) && Publishable(m.store, v)
            && ListingOf(m'.store) == Ingest(ListingOf(m.store), AsMap(recs))
  {
    PublishEffects(env, m, e);
    assert StoreOk(m.store);
    hide MachineOk, Step, ContentOf, StoreOk, PublishEffect, Publishable, PublishedVersion, ListingOf;
    PublishIsIngestOf(env, m.store, PublishedVersion(m), m.worker.value.run, Releaser(m));
  }

  lemma {:induction false} PublishEffects(env: Env, m: Machine, e: Event)
    requires MachineOk(env, m) && Publishes(m, e)
    ensures PublishedVersion(m) < |m.store.versions|
    ensures var v, m' := PublishedVersion(m), Step(env, m, e);
            && m'.store == PublishEffect(m.store, v, ContentOf(env, m.store.versions[v]), m.worker.value.run, Releaser(m))
            && m'.runs == m.runs[m.worker.value.run := FinishRun(Me(m), Succeeded)] && m'.worker.None?
            && m'.store.current == Some(v) && Publishable(m.store, v)
  {
    hide MachineOk, Step, ContentOf, PublishRows, NextRemovals, CrosslistOf, Publishable, ExpireProposals, PublishVersions, AsMap;
    if e.DiffPublish? {
      DecidedIsPublishable(env, m);
      DiffPublishGoesThrough(env, m);
    } else {
      ReleasingIsPublishable(env, m);
      PublishHeldGoesThrough(env, m);
    }
  }

  lemma {:induction false} PublishIsIngestOf(env: Env, st: Store, v: nat, run: nat, who: Option<Actor>)
    requires StoreOk(st) && Publishable(st, v)
    ensures var recs := ContentOf(env, st.versions[v]);
            ListingOf(PublishEffect(st, v, recs, run, who)) == Ingest(ListingOf(st), AsMap(recs))
  {
    FirstByKeyDistinct(env.records(st.versions[v].reader, st.versions[v].sha));
    PublishIsIngest(st, v, ContentOf(env, st.versions[v]), run, who);
  }

  lemma {:induction false} ResolveShape(env: Env, m: Machine, e: Event)
    requires Resolves(m, e)
    ensures var c, st' := m.store.proposals[e.proposal].subject.candidate, Step(env, m, e).store;
            && st'.rows == m.store.rows && st'.log == m.store.log && st'.current == m.store.current
            && st'.versions == m.store.versions
            && st'.removals == Resolve(m.store, c, ResolutionOf(m, e), e.reviewer).removals
  {
  }

  /** A resolving step releases at most the one key of the candidate it decides. */
  lemma {:induction false} ResolveStep(env: Env, m: Machine, e: Event)
    requires MachineOk(env, m) && Resolves(m, e)
    ensures var c, l := m.store.proposals[e.proposal].subject.candidate, ListingOf(m.store);
            && c < |m.store.removals|
            && (Holding(m.store.removals[c].status) && ResolutionOf(m, e) != RejectAsParserError ==>
                  ListingOf(Step(env, m, e).store) == Release(l, m.store.removals[c].key))
            && (!Holding(m.store.removals[c].status) || ResolutionOf(m, e) == RejectAsParserError ==>
                  ListingOf(Step(env, m, e).store) == l)
  {
    hide MachineOk, StoreOk, HoldingKeys, Open, Step, Resolve;
    ResolvesACandidate(env, m, e);
    ResolveShape(env, m, e);
    ResolveHolds(m.store, m.store.proposals[e.proposal].subject.candidate, ResolutionOf(m, e), e.reviewer);
  }

  lemma {:induction false} ResolvesACandidate(env: Env, m: Machine, e: Event)
    requires MachineOk(env, m) && Resolves(m, e)
    ensures StoreOk(m.store) && m.store.proposals[e.proposal].subject.candidate < |m.store.removals|
  {
    hide StoreOk;
    assert ProposalOk(m.store.proposals[e.proposal], m.store.versions, |m.store.removals|, m.runs);
  }

  lemma {:induction false} ResolveHolds(st: Store, c: nat, res: Resolution, reviewer: Actor)
    requires StoreOk(st) && c < |st.removals|
    ensures var st' := Resolve(st, c, res, reviewer);
            HoldingKeys(st'.removals) == if Holding(st.removals[c].status) && res != RejectAsParserError
                                         then HoldingKeys(st.removals) - {st.removals[c].key} else HoldingKeys(st.removals)
  {
    if Holding(st.removals[c].status) {
      assert RemovalsOk(st.removals, st.rows, Open(st.rows));
      HoldingAfterUpdate(st.removals, Resolve(st, c, res, reviewer).removals, c);
    }
  }

  /** The whole machine refines three atomic actions on the abstract list: ingest a file, release a key, or nothing. */
  lemma {:induction false} StepRefines(env: Env, m: Machine, e: Event)
    requires MachineOk(env, m)
    ensures var l, l' := ListingOf(m.store), ListingOf(Step(env, m, e).store);
            || l' == l
            || (Publishes(m, e) && PublishedVersion(m) < |m.store.versions|
                && l' == Ingest(l, AsMap(ContentOf(env, m.store.versions[PublishedVersion(m)]))))
            || (Resolves(m, e) && exists k :: k in l.held && l' == Release(l, k))
  {
    if Publishes(m, e) {
      PublishStep(env, m, e);
    } else if Resolves(m, e) {
      ResolveStep(env, m, e);
      var c := m.store.proposals[e.proposal].subject.candidate;
      if Holding(m.store.removals[c].status) {
        assert m.store.removals[c].key in HoldingKeys(m.store.removals);
        assert m.store.removals[c].key in ListingOf(m.store).held;
      }
    } else {
      QuietStep(env, m, e);
    }
  }

  // ---------------------------------------------------------------------------------------------
  // Nothing stops blocking without a reviewer
  // ---------------------------------------------------------------------------------------------

  /** A reviewer with the right role, other than the proposer, applied a proposal that releases key `k`. */
  predicate ReleasedByReviewer(m: Machine, e: Event, k: Key) {
    && Resolves(m, e) && e.role in {Reviewer, Admin} && e.reviewer != m.store.proposals[e.proposal].proposedBy
    && m.store.proposals[e.proposal].status == Awaiting
    && ResolutionOf(m, e) != RejectAsParserError
    && var c := m.store.proposals[e.proposal].subject.candidate;
       c < |m.store.removals| && m.store.removals[c].key == k && Holding(m.store.removals[c].status)
  }

  /** A key stops blocking in one step exactly when that step is such a decision. */
  lemma {:induction false} UnblockedIffReleased(env: Env, m: Machine, e: Event, k: Key)
    requires MachineOk(env, m) && k in Blocking(m.store)
    ensures k !in Blocking(Step(env, m, e).store) <==> ReleasedByReviewer(m, e, k)
  {
    hide MachineOk, Step, Open, HoldingKeys, Content, ContentOf, PublishEffect, Resolve, Publishable;
    assert Blocking(m.store) == ListingOf(m.store).open.Keys + ListingOf(m.store).held;
    if Publishes(m, e) {
      PublishStep(env, m, e);
    } else if Resolves(m, e) {
      ResolveStep(env, m, e);
      var c := m.store.proposals[e.proposal].subject.candidate;
      if Holding(m.store.removals[c].status) {
        HeldIsNotOpen(env, m, c);
      }
    } else {
      QuietStep(env, m, e);
    }
  }

  lemma {:induction false} HeldIsNotOpen(env: Env, m: Machine, c: nat)
    requires MachineOk(env, m) && c < |m.store.removals| && Holding(m.store.removals[c].status)
    ensures m.store.removals[c].key !in Open(m.store.rows) && m.store.removals[c].key in HoldingKeys(m.store.removals)
  {
    assert RemovalsOk(m.store.removals, m.store.rows, Open(m.store.rows));
  }

  /** Over any run of the system: a key that blocked and no longer does was released by a reviewer at some step. */
  lemma {:induction false} BlockingSafety(env: Env, m: Machine, es: seq<Event>, k: Key) returns (n: nat)
    requires MachineOk(env, m) && k in Blocking(m.store) && k !in Blocking(Execute(env, m, es).store)
    ensures n < |es| && ReleasedByReviewer(Execute(env, m, es[..n]), es[n], k)
  {
    hide MachineOk, Step, Blocking, ReleasedByReviewer;
    var last := |es| - 1;
    var before := Execute(env, m, es[..last]);
    ExecuteKeepsMachineOk(env, m, es[..last]);
    if k in Blocking(before.store) {
      UnblockedIffReleased(env, before, es[last], k);
      n := last;
    } else {
      n := BlockingSafety(env, m, es[..last], k);
      assert es[..last][..n] == es[..n];
    }
  }

  /** Which candidates a reviewer has released. */
  ghost predicate SameReleases(rs: seq<Removal>, rs': seq<Removal>) {
    |rs| <= |rs'| && forall c :: 0 <= c < |rs| ==> (HumanReleased(rs'[c].status) <==> HumanReleased(rs[c].status))
  }

  lemma {:induction false} PublishReleasesNothing(rs: seq<Removal>, rows: seq<Row>, staged: map<Key, Doc>, vid: nat)
    ensures SameReleases(rs, NextRemovals(rs, rows, staged, vid))
  {
    NextRemovalsIs(rs, rows, staged, vid);
    forall c | 0 <= c < |rs| ensures HumanReleased(NextRemovals(rs, rows, staged, vid)[c].status) <==> HumanReleased(rs[c].status) {
      assert NextRemovals(rs, rows, staged, vid)[c] == RelistOne(rs[c], Open(rows), staged);
    }
  }

  lemma {:induction false} QuietReleasesNothing(env: Env, m: Machine, e: Event)
    requires !Publishes(m, e) && !Resolves(m, e)
    ensures SameReleases(m.store.removals, Step(env, m, e).store.removals)
  {
    if OfWorker(e) && Working(m) {
      QuietWorkerStep(env, m, e);
    }
  }

  /** CONFIRMED, STILL_LISTED_ELSEWHERE and REJECTED_ID_CHANGE are written by reviewers only, and signed by them. */
  lemma {:induction false} ReleasedOnlyByReviewer(env: Env, m: Machine, e: Event, c: nat)
    requires MachineOk(env, m) && c < |m.store.removals| && !HumanReleased(m.store.removals[c].status)
    requires c < |Step(env, m, e).store.removals| && HumanReleased(Step(env, m, e).store.removals[c].status)
    ensures ReleasedByReviewer(m, e, m.store.removals[c].key)
    ensures Step(env, m, e).store.removals[c].decidedBy == Some(e.reviewer)
  {
    hide MachineOk, Step, Content, ContentOf, PublishRows, NextRemovals, CrosslistOf;
    if Publishes(m, e) {
      PublishStep(env, m, e);
      var recs := ContentOf(env, m.store.versions[PublishedVersion(m)]);
      PublishReleasesNothing(m.store.removals, m.store.rows, AsMap(recs), PublishedVersion(m));
    } else if Resolves(m, e) {
      ResolveShape(env, m, e);
    } else {
      QuietReleasesNothing(env, m, e);
    }
  }

  // ---------------------------------------------------------------------------------------------
  // No unreviewed mass removal
  // ---------------------------------------------------------------------------------------------

  /** The keys a publish takes off the list. */
  function TakenOff(before: Store, after: Store): set<Key> { Open(before.rows).Keys - Open(after.rows).Keys }

  ghost predicate WithinBounds(cfg: V.Config, removed: nat, previous: nat) {
    removed == 0 || (removed <= cfg.maxRemovedAbs && 100.0 * removed as real <= cfg.maxRemovedPct * previous as real)
  }

  /** Somebody other than the validator that held version `v` approved its release. */
  ghost predicate ApprovedByReviewer(ps: seq<Proposal>, v: nat) {
    exists p :: 0 <= p < |ps| && ps[p].subject == LargeChangeRelease(v) && ps[p].status == Applied
                && ps[p].proposedBy == VALIDATOR && ps[p].reviewedBy.Some? && ps[p].reviewedBy.value != VALIDATOR
  }

  lemma {:induction false} ApprovedIsReviewed(env: Env, m: Machine, v: nat)
    requires MachineOk(env, m) && ReleaseApproved(m.store.proposals, v)
    ensures ApprovedByReviewer(m.store.proposals, v)
  {
    var ps := m.store.proposals;
    var p :| 0 <= p < |ps| && ps[p].subject == LargeChangeRelease(v) && ps[p].status == Applied;
    assert ProposalOk(ps[p], m.store.versions, |m.store.removals|, m.runs);
  }

  /** The diff the gate judged is the diff the publish applies, so what passed the gate stays within its bounds. */
  lemma {:induction false} PassedIsBounded(env: Env, cfg: Settings, sha: Sha, open: map<Key, Doc>)
    requires VerdictOn(env, cfg, sha, open, Content(env, cfg.reader, sha)) == V.Pass
    ensures WithinBounds(cfg.gate, |open.Keys - AsMap(Content(env, cfg.reader, sha)).Keys|, |open|)
  {
    hide V.Judge, AsMap, Content, QualityOf, WithinBounds;
    var recs := Content(env, cfg.reader, sha);
    PreviewConserves(open, AsMap(recs));
    PassIsWithin(cfg.gate, QualityOf(env, cfg, sha, recs), Preview(open, AsMap(recs)));
  }

  lemma {:induction false} PassIsWithin(cfg: V.Config, q: V.Quality, d: Diff)
    requires V.Judge(cfg, q, Some(d)) == V.Pass && d.removed <= d.previous
    ensures WithinBounds(cfg, d.removed, d.previous)
  {
    hide V.Judge;
    V.PassBoundsRemovals(cfg, q, d);
  }

  /** A publish by an ingest run removes no more than the configuration allows; any other was approved by a reviewer. */
  ghost predicate BoundedOrApproved(env: Env, m: Machine, e: Event)
    requires Working(m)
  {
    if Me(m).kind.ListIngest? then
      WithinBounds(m.worker.value.cfg.gate, |TakenOff(m.store, Step(env, m, e).store)|, |Open(m.store.rows)|)
    else ApprovedByReviewer(m.store.proposals, PublishedVersion(m))
  }

  lemma {:induction false} ReleasingApproved(env: Env, m: Machine)
    requires MachineOk(env, m) && Working(m) && m.worker.value.phase.Releasing?
    ensures Me(m).kind.ReleaseHeld? && ApprovedByReviewer(m.store.proposals, Me(m).kind.version)
  {
    assert Me(m).kind.ReleaseHeld? && ReleaseApproved(m.store.proposals, Me(m).kind.version);
    hide MachineOk;
    ApprovedIsReviewed(env, m, Me(m).kind.version);
  }

  lemma {:induction false} NoUnreviewedMassRemoval(env: Env, m: Machine, e: Event)
    requires MachineOk(env, m) && Publishes(m, e)
    ensures BoundedOrApproved(env, m, e)
  {
    PublishStep(env, m, e);
    if e.DiffPublish? {
      DecidedFacts(env, m);
      DecidedKind(env, m);
      hide MachineOk, Step, VerdictOn, Content, ContentOf, PublishEffect, Open;
      var w := m.worker.value;
      PassedIsBounded(env, w.cfg, w.phase.sha, Open(m.store.rows));
      assert Open(Step(env, m, e).store.rows) == AsMap(Content(env, w.cfg.reader, w.phase.sha));
    } else {
      ReleasingApproved(env, m);
    }
  }

  lemma {:induction false} LinkedRuns(env: Env, m: Machine)
    requires MachineOk(env, m)
    ensures VersionsLinked(m.store.versions, m.runs)
  {
    hide StoreOk, QueueOk, VersionsLinked, ProposalsOk, ReleasesOk, HeldOk, LogLinked, ArchiveOk, OneSource, FreshQueued, WorkerOk;
  }

  lemma {:induction false} DecidedKind(env: Env, m: Machine)
    requires MachineOk(env, m) && Working(m) && m.worker.value.phase.Decided?
    ensures Me(m).kind.ListIngest?
  {
    DecidedOwn(env, m);
    LinkedRuns(env, m);
    hide MachineOk;
  }

  /** The publication log only grows, by one entry per publishing step. */
  lemma {:induction false} LogStep(env: Env, m: Machine, e: Event)
    requires MachineOk(env, m)
    ensures var log, log' := m.store.log, Step(env, m, e).store.log;
            && (!Publishes(m, e) ==> log' == log)
            && (Publishes(m, e) ==>
                  PublishedVersion(m) < |m.store.versions|
                  && log' == log + [Publication(m.store.versions[PublishedVersion(m)].seqNo,
                                                AsMap(ContentOf(env, m.store.versions[PublishedVersion(m)])), m.worker.value.run)])
  {
    hide MachineOk, Step, Content, ContentOf, PublishedVersion;
    if Publishes(m, e) {
      PublishStep(env, m, e);
    } else if Resolves(m, e) {
      ResolveShape(env, m, e);
    } else {
      QuietStep(env, m, e);
    }
  }

  /** Over any run of the system, every publication went live in one bounded or approved step. */
  lemma {:induction false} EveryPublicationBoundedOrApproved(env: Env, m: Machine, es: seq<Event>, i: nat) returns (n: nat)
    requires MachineOk(env, m) && |m.store.log| <= i < |Execute(env, m, es).store.log|
    ensures n < |es|
    ensures var before := Execute(env, m, es[..n]);
            && Publishes(before, es[n]) && BoundedOrApproved(env, before, es[n])
            && |before.store.log| == i && Execute(env, m, es).store.log[..i] == before.store.log
            && Execute(env, m, es).store.log[i].run == before.worker.value.run
  {
    hide MachineOk, Step, BoundedOrApproved, Content, ContentOf, PublishedVersion;
    var last := |es| - 1;
    var before := Execute(env, m, es[..last]);
    ExecuteKeepsMachineOk(env, m, es[..last]);
    LogStep(env, before, es[last]);
    if i < |before.store.log| {
      n := EveryPublicationBoundedOrApproved(env, m, es[..last], i);
      assert es[..last][..n] == es[..n];
    } else {
      n := last;
      NoUnreviewedMassRemoval(env, before, es[last]);
    }
  }

  // ---------------------------------------------------------------------------------------------
  // In every reachable state
  // ---------------------------------------------------------------------------------------------

  /** The states the machine can be in: any sequence of events from an empty source. */
  ghost predicate Reachable(env: Env, m: Machine) {
    exists source, cfg, es :: m == Execute(env, Start(source, cfg), es)
  }

  lemma {:induction false} ReachableOk(env: Env, m: Machine)
    requires Reachable(env, m)
    ensures MachineOk(env, m)
  {
    var source, cfg, es :| m == Execute(env, Start(source, cfg), es);
    StartOk(env, source, cfg);
    ExecuteKeepsMachineOk(env, Start(source, cfg), es);
  }

  /** One live version, the newest ever published; held ones are newer still; unfinished ones belong to a live run. */
  lemma {:induction false} VersionLifecycle(env: Env, m: Machine, i: nat)
    requires Reachable(env, m) && i < |m.store.versions|
    ensures var st := m.store;
            && (st.versions[i].status == Published <==> st.current == Some(i))
            && (PublishedOrSuperseded(st.versions[i].status) ==>
                  st.current.Some? && st.current.value < |st.versions| && st.versions[i].seqNo <= st.versions[st.current.value].seqNo)
            && (st.versions[i].status == Held ==> !Outdated(st.versions, st.versions[i].seqNo))
            && (Unfinished(st.versions[i].status) ==>
                  st.versions[i].run < |m.runs| && m.runs[st.versions[i].run].status == Running)
  {
    ReachableOk(env, m);
    assert StoreOk(m.store) && VersionsLinked(m.store.versions, m.runs);
    assert VersionsOk(m.store.versions, m.store.current);
    hide MachineOk, Reachable, StoreOk, Outdated;
    NotOutdatedIffNewest(m.store, i);
  }

  /** The rows valid at any sequence number are exactly the content of the archived file last published by then. */
  lemma {:induction false} TimeTravelFromArchive(env: Env, m: Machine, q: nat, i: nat)
    requires Reachable(env, m) && i < |m.store.log| && m.store.log[i].seqNo <= q
    requires forall j :: i < j < |m.store.log| ==> q < m.store.log[j].seqNo
    ensures 1 <= m.store.log[i].seqNo <= |m.store.versions|
    ensures ExactlyAt(m.store.rows, q, AsMap(ContentOf(env, m.store.versions[m.store.log[i].seqNo - 1])))
    ensures PublishedOrSuperseded(m.store.versions[m.store.log[i].seqNo - 1].status)
  {
    hide MachineOk, Reachable, ExactlyAt, Content, ContentOf, ContentAt;
    ReachableOk(env, m);
    LogFacts(env, m);
    LastAtOrBefore(m.store.log, q, i);
  }

  lemma {:induction false} LogFacts(env: Env, m: Machine)
    requires MachineOk(env, m)
    ensures TimeTravel(m.store.rows, m.store.log) && LogLinked(env, m.store.log, m.store.versions, m.runs)
  {
    hide TimeTravel, LogLinked;
  }

  lemma {:induction false} LastAtOrBefore(log: seq<Publication>, q: nat, i: nat)
    requires i < |log| && log[i].seqNo <= q && forall j :: i < j < |log| ==> q < log[j].seqNo
    ensures ContentAt(log, q) == log[i].content
  {
    if i < |log| - 1 {
      LastAtOrBefore(log[..|log| - 1], q, i);
    }
  }

  /** A resume chain publishes at most one version, however often its attempts crashed. */
  lemma {:induction false} ChainPublishesOnce(env: Env, m: Machine, tip: nat, i: nat, j: nat)
    requires Reachable(env, m) && tip < |m.runs| && i < j < |m.store.log|
    ensures !(InChain(m.runs, m.store.log[i].run, tip) && InChain(m.runs, m.store.log[j].run, tip))
  {
    ReachableOk(env, m);
    assert LogLinked(env, m.store.log, m.store.versions, m.runs) && QueueOk(m.runs);
    hide MachineOk, Reachable, QueueOk;
    if InChain(m.runs, m.store.log[i].run, tip) && InChain(m.runs, m.store.log[j].run, tip) {
      ChainFinishesOnce(m.runs, m.store.log[i].run, m.store.log[j].run, tip);
    }
  }
}
