/**
 What screening matches against. Every publish and every removal decision cuts a snapshot over all sources in
 the same transaction. The newest snapshot always shows exactly what blocks, and an old one never changes.
 */
module Screening {
  import opened Base
  import opened Canonical
  import opened Scd2
  import opened ListStore
  import opened ListStoreProofs
  import opened Staging
  import opened RunQueue
  import opened Pipeline
  import opened PipelineInvariant
  import opened PipelineSteps
  import opened PipelineTheorems

  /** A removal candidate of one source. */
  datatype Ref = Ref(source: SourceId, id: nat)

  /** `screening_snapshot` with its `snapshot_version` rows: held candidates and the live sequence number per source. */
  datatype Snapshot = Snapshot(held: set<Ref>, pins: map<SourceId, nat>)

  datatype World = World(sources: map<SourceId, Machine>, snapshots: seq<Snapshot>)

  datatype WorldEvent = Add(source: SourceId, cfg: Settings) | At(source: SourceId, event: Event)

  /** A row of `records_as_of`. */
  datatype Shown = Shown(source: SourceId, row: nat, pending: bool)

  function Cut(sources: map<SourceId, Machine>): Snapshot {
    Snapshot(
      set s, c | s in sources && 0 <= c < |sources[s].store.removals| && Holding(sources[s].store.removals[c].status) :: Ref(s, c),
      map s | s in sources && sources[s].store.current.Some? :: Pub(sources[s].store))
  }

  /** The transactions that cut a snapshot: every publish, and every removal decision that does not blame the parser. */
  predicate Cuts(m: Machine, e: Event) {
    Publishes(m, e) || (Resolves(m, e) && ResolutionOf(m, e) != RejectAsParserError)
  }

  function WorldStep(env: SourceId -> Env, w: World, e: WorldEvent): World {
    match e
    case Add(s, cfg) => if s in w.sources then w else w.(sources := w.sources[s := Start(s, cfg)])
    case At(s, event) =>
      if s !in w.sources then w
      else
        var sources := w.sources[s := Step(env(s), w.sources[s], event)];
        World(sources, if Cuts(w.sources[s], event) then w.snapshots + [Cut(sources)] else w.snapshots)
  }

  function WorldRun(env: SourceId -> Env, w: World, es: seq<WorldEvent>): World {
    if es == [] then w else WorldStep(env, WorldRun(env, w, es[..|es| - 1]), es[|es| - 1])
  }

  /** The rows valid at each pin, and the last row of every removal the snapshot holds. */
  function RecordsAsOf(sources: map<SourceId, Machine>, snap: Snapshot): set<Shown> {
    (set s, i | s in snap.pins && s in sources && 0 <= i < |sources[s].store.rows| && ValidAt(sources[s].store.rows[i], snap.pins[s])
       :: Shown(s, i, false))
    + (set r | r in snap.held && r.source in sources && r.id < |sources[r.source].store.removals|
         :: Shown(r.source, sources[r.source].store.removals[r.id].lastRow, true))
  }

  // ---------------------------------------------------------------------------------------------
  // Invariant
  // ---------------------------------------------------------------------------------------------

  /** A snapshot refers only to what exists, and pins nothing newer than what is live. */
  ghost predicate SnapshotOk(sources: map<SourceId, Machine>, snap: Snapshot) {
    && (forall s :: s in snap.pins ==> s in sources && snap.pins[s] <= Pub(sources[s].store))
    && (forall r :: r in snap.held ==> r.source in sources && r.id < |sources[r.source].store.removals|)
  }

  ghost predicate MachinesOk(env: SourceId -> Env, sources: map<SourceId, Machine>) {
    forall s :: s in sources ==> MachineOk(env(s), sources[s])
  }

  /** Before the first snapshot nothing was ever published. */
  ghost predicate NothingYet(sources: map<SourceId, Machine>) {
    forall s :: s in sources ==> Blank(sources[s].store)
  }

  ghost predicate Blank(st: Store) { st.current == None && st.rows == [] && st.removals == [] }

  ghost predicate WorldOk(env: SourceId -> Env, w: World) {
    && MachinesOk(env, w.sources)
    && (forall i :: 0 <= i < |w.snapshots| ==> SnapshotOk(w.sources, w.snapshots[i]))
    && (w.snapshots != [] ==> w.snapshots[|w.snapshots| - 1] == Cut(w.sources))
    && (w.snapshots == [] ==> NothingYet(w.sources))
  }

  // ---------------------------------------------------------------------------------------------
  // How a source's data may grow
  // ---------------------------------------------------------------------------------------------

  /** Seen from sequence number `q`, the table did not change. */
  ghost predicate SamePast(rows: seq<Row>, rows': seq<Row>, q: nat) {
    && |rows| <= |rows'|
    && (forall i :: 0 <= i < |rows| ==>
          rows'[i].key == rows[i].key && rows'[i].doc == rows[i].doc && (ValidAt(rows'[i], q) <==> ValidAt(rows[i], q)))
    && (forall i :: |rows| <= i < |rows'| ==> !ValidAt(rows'[i], q))
  }

  /** Candidates keep their identity and the row they hold. */
  ghost predicate CandidatesKept(rs: seq<Removal>, rs': seq<Removal>) {
    |rs| <= |rs'| && forall i :: 0 <= i < |rs| ==> rs'[i].key == rs[i].key && rs'[i].lastRow == rs[i].lastRow
  }

  ghost predicate Grows(st: Store, st': Store) {
    && Pub(st) <= Pub(st') && CandidatesKept(st.removals, st'.removals)
    && forall q: nat :: q <= Pub(st) ==> SamePast(st.rows, st'.rows, q)
  }

  lemma {:induction false} PublishSamePast(rows: seq<Row>, recs: seq<Rec>, n: nat, q: nat)
    requires DistinctKeys(recs) && q < n
    ensures SamePast(rows, PublishRows(rows, recs, n), q)
  {
    var rows' := PublishRows(rows, recs, n);
    InsertSound(Open(rows), recs, n);
    PublishShape(rows, recs, n);
    forall i | |rows| <= i < |rows'| ensures !ValidAt(rows'[i], q) {
      assert rows'[i] == Insert(Open(rows), recs, n)[i - |rows|];
    }
  }

  lemma {:induction false} PublishGrows(st: Store, v: nat, recs: seq<Rec>, run: nat, who: Option<Actor>)
    requires StoreOk(st) && Publishable(st, v) && DistinctKeys(recs)
    ensures Grows(st, PublishEffect(st, v, recs, run, who))
  {
    var st' := PublishEffect(st, v, recs, run, who);
    var n := st.versions[v].seqNo;
    PubBelow(st, v);
    assert Pub(st') == n;
    forall q: nat | q <= Pub(st) ensures SamePast(st.rows, st'.rows, q) {
      PublishSamePast(st.rows, recs, n, q);
    }
    NextRemovalsIs(st.removals, st.rows, AsMap(recs), v);
    forall i | 0 <= i < |st.removals| ensures st'.removals[i].key == st.removals[i].key && st'.removals[i].lastRow == st.removals[i].lastRow {
      assert st'.removals[i] == RelistOne(st.removals[i], Open(st.rows), AsMap(recs));
    }
  }

  lemma {:induction false} PublishStepGrows(env: Env, m: Machine, e: Event)
    requires MachineOk(env, m) && Publishes(m, e)
    ensures Grows(m.store, Step(env, m, e).store)
  {
    assert StoreOk(m.store);
    hide MachineOk, Content, ContentOf, Step, StoreOk, PublishEffect, Publishable, Grows;
    PublishStep(env, m, e);
    ContentDistinct(env, m.store.versions[PublishedVersion(m)]);
    PublishGrows(m.store, PublishedVersion(m), ContentOf(env, m.store.versions[PublishedVersion(m)]), m.worker.value.run, Releaser(m));
  }

  lemma {:induction false} SameGrows(st: Store, st': Store)
    requires st'.rows == st.rows && CandidatesKept(st.removals, st'.removals) && st'.current == st.current
    requires |st.versions| <= |st'.versions| && forall i :: 0 <= i < |st.versions| ==> st'.versions[i].seqNo == st.versions[i].seqNo
    ensures Grows(st, st')
  {
  }

  lemma {:induction false} StepGrows(env: Env, m: Machine, e: Event)
    requires MachineOk(env, m)
    ensures Grows(m.store, Step(env, m, e).store)
  {
    hide MachineOk, Step, Grows;
    if Publishes(m, e) {
      PublishStepGrows(env, m, e);
    } else if Resolves(m, e) {
      ResolveShape(env, m, e);
      SameGrows(m.store, Step(env, m, e).store);
    } else {
      QuietStep(env, m, e);
      QuietKeepsCandidates(env, m, e);
      SameGrows(m.store, Step(env, m, e).store);
    }
  }

  lemma {:induction false} ContentDistinct(env: Env, ver: Version)
    ensures DistinctKeys(ContentOf(env, ver))
  {
    FirstByKeyDistinct(env.records(ver.reader, ver.sha));
  }

  lemma {:induction false} QuietKeepsCandidates(env: Env, m: Machine, e: Event)
    requires !Publishes(m, e) && !Resolves(m, e)
    ensures CandidatesKept(m.store.removals, Step(env, m, e).store.removals)
  {
    if OfWorker(e) && Working(m) {
      QuietWorkerStep(env, m, e);
    }
  }

  // ---------------------------------------------------------------------------------------------
  // The newest snapshot is always exact
  // ---------------------------------------------------------------------------------------------

  /** What a snapshot records of one source. */
  ghost predicate SameCut(m: Machine, m': Machine) {
    && |m'.store.removals| == |m.store.removals| && m'.store.current.Some? == m.store.current.Some?
    && Pub(m'.store) == Pub(m.store)
    && forall c :: 0 <= c < |m.store.removals| ==> (Holding(m'.store.removals[c].status) <==> Holding(m.store.removals[c].status))
  }

  lemma {:induction false} CutFrame(sources: map<SourceId, Machine>, s: SourceId, m': Machine)
    requires s in sources && SameCut(sources[s], m')
    ensures Cut(sources[s := m']) == Cut(sources)
  {
    var sources' := sources[s := m'];
    assert Cut(sources').pins == Cut(sources).pins;
    assert Cut(sources').held == Cut(sources).held;
  }

  lemma {:induction false} SamePublishedSameCut(m: Machine, m': Machine)
    requires m'.store.current == m.store.current && (m.store.current.Some? ==> m.store.current.value < |m.store.versions|)
    requires |m.store.versions| <= |m'.store.versions|
    requires forall i :: 0 <= i < |m.store.versions| ==> m'.store.versions[i].seqNo == m.store.versions[i].seqNo
    requires SameHolds(m.store.removals, m'.store.removals)
    ensures SameCut(m, m')
  {
  }

  /** A removal blamed on the parser cuts no snapshot and changes nothing a snapshot records. */
  lemma {:induction false} UncutResolve(env: Env, m: Machine, e: Event)
    requires MachineOk(env, m) && !Cuts(m, e) && Resolves(m, e)
    ensures SameCut(m, Step(env, m, e)) && (Blank(m.store) ==> Blank(Step(env, m, e).store))
  {
    hide MachineOk, Step, SameCut, Publishes;
    CurrentExists(env, m);
    ResolvesACandidate(env, m, e);
    ResolveShape(env, m, e);
    hide MayReview, ResolutionOf;
    SamePublishedSameCut(m, Step(env, m, e));
  }

  /** A step that cuts no snapshot changes nothing a snapshot records. */
  lemma {:induction false} UncutStep(env: Env, m: Machine, e: Event)
    requires MachineOk(env, m) && !Cuts(m, e)
    ensures SameCut(m, Step(env, m, e)) && (Blank(m.store) ==> Blank(Step(env, m, e).store))
  {
    hide MachineOk, Step, SameCut, Publishes, Resolves, ListingOf;
    if Resolves(m, e) {
      UncutResolve(env, m, e);
    } else {
      CurrentExists(env, m);
      QuietStep(env, m, e);
      SamePublishedSameCut(m, Step(env, m, e));
    }
  }

  lemma {:induction false} CurrentExists(env: Env, m: Machine)
    requires MachineOk(env, m)
    ensures m.store.current.Some? ==> m.store.current.value < |m.store.versions|
  {
    assert VersionsOk(m.store.versions, m.store.current);
  }

  lemma {:induction false} AddKeepsWorldOk(env: SourceId -> Env, w: World, s: SourceId, cfg: Settings)
    requires WorldOk(env, w) && s !in w.sources
    ensures WorldOk(env, w.(sources := w.sources[s := Start(s, cfg)]))
  {
    StartOk(env(s), s, cfg);
    StartBlank(s, cfg);
    hide MachineOk, Start, SnapshotOk, Cut, Blank;
    var m, sources' := Start(s, cfg), w.sources[s := Start(s, cfg)];
    forall i | 0 <= i < |w.snapshots| ensures SnapshotOk(sources', w.snapshots[i]) {
      SnapshotOkAdd(w.sources, s, m, w.snapshots[i]);
    }
    CutAdd(w.sources, s, m);
  }

  lemma {:induction false} StartBlank(s: SourceId, cfg: Settings)
    ensures Blank(Start(s, cfg).store)
  {
  }

  lemma {:induction false} SnapshotOkAdd(sources: map<SourceId, Machine>, s: SourceId, m: Machine, snap: Snapshot)
    requires s !in sources && SnapshotOk(sources, snap)
    ensures SnapshotOk(sources[s := m], snap)
  {
  }

  lemma {:induction false} CutAdd(sources: map<SourceId, Machine>, s: SourceId, m: Machine)
    requires s !in sources && Blank(m.store)
    ensures Cut(sources[s := m]) == Cut(sources)
  {
    var sources' := sources[s := m];
    assert Cut(sources').held == Cut(sources).held;
    assert Cut(sources').pins == Cut(sources).pins;
  }

  lemma {:induction false} SnapshotOkStep(sources: map<SourceId, Machine>, s: SourceId, m': Machine, snap: Snapshot)
    requires s in sources && SnapshotOk(sources, snap) && Grows(sources[s].store, m'.store)
    ensures SnapshotOk(sources[s := m'], snap)
  {
  }

  lemma {:induction false} CutOk(env: SourceId -> Env, sources: map<SourceId, Machine>)
    ensures SnapshotOk(sources, Cut(sources))
  {
  }

  lemma {:induction false} WorldStepKeepsWorldOk(env: SourceId -> Env, w: World, e: WorldEvent)
    requires WorldOk(env, w)
    ensures WorldOk(env, WorldStep(env, w, e))
  {
    hide MachineOk, Step, Cuts, SnapshotOk, Grows, SameCut, Cut;
    match e {
      case Add(s, cfg) => if s !in w.sources { AddKeepsWorldOk(env, w, s, cfg); }
      case At(s, event) =>
        if s in w.sources {
          var m, m' := w.sources[s], Step(env(s), w.sources[s], event);
          var sources' := w.sources[s := m'];
          StepKeepsMachineOk(env(s), m, event);
          StepGrows(env(s), m, event);
          forall i | 0 <= i < |w.snapshots| ensures SnapshotOk(sources', w.snapshots[i]) {
            SnapshotOkStep(w.sources, s, m', w.snapshots[i]);
          }
          if Cuts(m, event) {
            CutOk(env, sources');
          } else {
            UncutStep(env(s), m, event);
            CutFrame(w.sources, s, m');
          }
        }
    }
  }

  lemma {:induction false} WorldRunKeepsWorldOk(env: SourceId -> Env, w: World, es: seq<WorldEvent>)
    requires WorldOk(env, w)
    ensures WorldOk(env, WorldRun(env, w, es))
  {
    hide WorldOk, WorldStep;
    if es != [] {
      WorldRunKeepsWorldOk(env, w, es[..|es| - 1]);
      WorldStepKeepsWorldOk(env, WorldRun(env, w, es[..|es| - 1]), es[|es| - 1]);
    }
  }

  lemma {:induction false} EmptyWorldOk(env: SourceId -> Env)
    ensures WorldOk(env, World(map[], []))
  {
  }

  // ---------------------------------------------------------------------------------------------
  // An old snapshot never changes
  // ---------------------------------------------------------------------------------------------

  lemma {:induction false} RecordsFrame(sources: map<SourceId, Machine>, s: SourceId, m': Machine, snap: Snapshot)
    requires s in sources && SnapshotOk(sources, snap) && Grows(sources[s].store, m'.store)
    ensures RecordsAsOf(sources[s := m'], snap) == RecordsAsOf(sources, snap)
  {
    var sources' := sources[s := m'];
    var st, st' := sources[s].store, m'.store;
    if s in snap.pins {
      assert SamePast(st.rows, st'.rows, snap.pins[s]);
    }
    forall x | x in RecordsAsOf(sources, snap) ensures x in RecordsAsOf(sources', snap) {
      if x.pending {
        var r :| r in snap.held && r.source in sources && r.id < |sources[r.source].store.removals|
                 && x == Shown(r.source, sources[r.source].store.removals[r.id].lastRow, true);
        assert sources'[r.source].store.removals[r.id].lastRow == x.row;
      }
    }
    forall x | x in RecordsAsOf(sources', snap) ensures x in RecordsAsOf(sources, snap) {
      if x.pending {
        var r :| r in snap.held && r.source in sources' && r.id < |sources'[r.source].store.removals|
                 && x == Shown(r.source, sources'[r.source].store.removals[r.id].lastRow, true);
        assert sources[r.source].store.removals[r.id].lastRow == x.row;
      }
    }
  }

  lemma {:induction false} RecordsAddFrame(sources: map<SourceId, Machine>, s: SourceId, m': Machine, snap: Snapshot)
    requires s !in sources && SnapshotOk(sources, snap)
    ensures RecordsAsOf(sources[s := m'], snap) == RecordsAsOf(sources, snap)
  {
    var sources' := sources[s := m'];
    assert forall r :: r in snap.held ==> r.source in sources && r.source != s;
    assert forall q :: q in snap.pins ==> q in sources && q != s;
  }

  /** A past screening decision can be reproduced: no later event changes what a snapshot shows. */
  lemma {:induction false} SnapshotsAreReproducible(env: SourceId -> Env, w: World, es: seq<WorldEvent>, i: nat)
    requires WorldOk(env, w) && i < |w.snapshots|
    ensures var w' := WorldRun(env, w, es);
            && i < |w'.snapshots| && w'.snapshots[i] == w.snapshots[i]
            && RecordsAsOf(w'.sources, w.snapshots[i]) == RecordsAsOf(w.sources, w.snapshots[i])
  {
    hide WorldOk, WorldStep, RecordsAsOf;
    if es != [] {
      var before := WorldRun(env, w, es[..|es| - 1]);
      SnapshotsAreReproducible(env, w, es[..|es| - 1], i);
      WorldRunKeepsWorldOk(env, w, es[..|es| - 1]);
      WorldStepKeepsSnapshot(env, before, es[|es| - 1], i);
    }
  }

  lemma {:induction false} WorldStepKeepsSnapshot(env: SourceId -> Env, w: World, e: WorldEvent, i: nat)
    requires WorldOk(env, w) && i < |w.snapshots|
    ensures var w' := WorldStep(env, w, e);
            && i < |w'.snapshots| && w'.snapshots[i] == w.snapshots[i]
            && RecordsAsOf(w'.sources, w.snapshots[i]) == RecordsAsOf(w.sources, w.snapshots[i])
  {
    hide MachineOk, Step, Cuts, SnapshotOk, Grows, RecordsAsOf, Cut;
    match e {
      case Add(s, cfg) => if s !in w.sources { RecordsAddFrame(w.sources, s, Start(s, cfg), w.snapshots[i]); }
      case At(s, event) =>
        if s in w.sources {
          StepGrows(env(s), w.sources[s], event);
          RecordsFrame(w.sources, s, Step(env(s), w.sources[s], event), w.snapshots[i]);
        }
    }
  }

  // ---------------------------------------------------------------------------------------------
  // What the newest snapshot shows is what blocks
  // ---------------------------------------------------------------------------------------------

  /** The snapshot shows a record of `s` with this key, as listed or as pending removal. */
  ghost predicate Shows(sources: map<SourceId, Machine>, snap: Snapshot, s: SourceId, k: Key, pending: bool) {
    s in sources && exists x :: x in RecordsAsOf(sources, snap) && x.source == s && x.pending == pending
                                && x.row < |sources[s].store.rows| && sources[s].store.rows[x.row].key == k
  }

  lemma {:induction false} ShowsOpen(sources: map<SourceId, Machine>, s: SourceId, k: Key)
    requires s in sources && StoreOk(sources[s].store) && sources[s].store.current.Some?
    ensures Shows(sources, Cut(sources), s, k, false) <==> k in Open(sources[s].store.rows)
  {
    var st, snap := sources[s].store, Cut(sources);
    OpenSound(st.rows, Pub(st));
    assert snap.pins[s] == Pub(st);
    assert RowsOk(st.rows, Pub(st));
    hide StoreOk, Open;
    forall i | 0 <= i < |st.rows| ensures ValidAt(st.rows[i], Pub(st)) <==> IsOpen(st.rows[i]) {
    }
    if k in Open(st.rows) {
      var i := OpenRowOf(st.rows, Open(st.rows), k);
      assert Shown(s, i, false) in RecordsAsOf(sources, snap);
    }
  }

  lemma {:induction false} ShowsHeld(sources: map<SourceId, Machine>, s: SourceId, k: Key)
    requires s in sources && StoreOk(sources[s].store)
    ensures Shows(sources, Cut(sources), s, k, true) <==> k in HoldingKeys(sources[s].store.removals)
  {
    var st, snap := sources[s].store, Cut(sources);
    assert RemovalsOk(st.removals, st.rows, Open(st.rows));
    hide StoreOk, Open;
    if k in HoldingKeys(st.removals) {
      var j := HolderOf(st.removals, k);
      assert Ref(s, j) in snap.held;
      assert Shown(s, st.removals[j].lastRow, true) in RecordsAsOf(sources, snap);
    }
  }

  lemma {:induction false} RowIsLogged(rows: seq<Row>, log: seq<Publication>)
    requires rows != [] && RowsOk(rows, 0) && TimeTravel(rows, log)
    ensures rows[0].key in ContentAt(log, 0)
  {
    assert ValidAt(rows[0], 0);
    assert ExactlyAt(rows, 0, ContentAt(log, 0));
  }

  lemma {:induction false} RemovalHasRow(rs: seq<Removal>, rows: seq<Row>, open: map<Key, Doc>)
    requires RemovalsOk(rs, rows, open) && rs != []
    ensures rows != []
  {
    assert rs[0].lastRow < |rows|;
  }

  lemma {:induction false} UnpublishedFacts(env: Env, m: Machine)
    requires MachineOk(env, m) && m.store.current == None
    ensures m.store.log == [] && RowsOk(m.store.rows, 0) && TimeTravel(m.store.rows, m.store.log)
    ensures RemovalsOk(m.store.removals, m.store.rows, Open(m.store.rows))
  {
    var st := m.store;
    assert LogLinked(env, st.log, st.versions, m.runs) && LogOk(st.log, Pub(st));
    hide RowsOk, TimeTravel, RemovalsOk, Open;
  }

  lemma {:induction false} UnpublishedIsBlank(env: Env, m: Machine)
    requires MachineOk(env, m) && m.store.current == None
    ensures m.store.rows == [] && m.store.removals == []
  {
    hide MachineOk, RowsOk, TimeTravel, RemovalsOk, Open;
    UnpublishedFacts(env, m);
    if m.store.rows != [] {
      RowIsLogged(m.store.rows, m.store.log);
    }
    if m.store.removals != [] {
      RemovalHasRow(m.store.removals, m.store.rows, Open(m.store.rows));
    }
  }

  /**
   Once anything is published, the newest snapshot shows for every source exactly the blocking keys: the listed
   ones as listed, the vanished but unreleased ones as pending, and no key as both.
   */
  lemma {:induction false} NewestSnapshotIsBlocking(env: SourceId -> Env, w: World, s: SourceId, k: Key)
    requires WorldOk(env, w) && w.snapshots != [] && s in w.sources
    ensures var snap := w.snapshots[|w.snapshots| - 1];
            && (Shows(w.sources, snap, s, k, false) || Shows(w.sources, snap, s, k, true) <==> k in Blocking(w.sources[s].store))
            && !(Shows(w.sources, snap, s, k, false) && Shows(w.sources, snap, s, k, true))
  {
    hide *;
    if w.sources[s].store.current.None? {
      EachMachineOk(env, w, s);
      UnpublishedIsBlank(env(s), w.sources[s]);
      BlankShowsNothing(w.sources, w.snapshots[|w.snapshots| - 1], s, k);
    } else {
      PublishedShows(env, w, s, k);
      BlockingIs(w.sources[s].store, k);
    }
  }

  lemma {:induction false} EachMachineOk(env: SourceId -> Env, w: World, s: SourceId)
    requires WorldOk(env, w) && s in w.sources
    ensures MachineOk(env(s), w.sources[s])
  {
    hide MachineOk, Cut, SnapshotOk, NothingYet;
  }

  lemma {:induction false} BlankShowsNothing(sources: map<SourceId, Machine>, snap: Snapshot, s: SourceId, k: Key)
    requires s in sources && sources[s].store.rows == [] && sources[s].store.removals == []
    ensures !Shows(sources, snap, s, k, false) && !Shows(sources, snap, s, k, true) && k !in Blocking(sources[s].store)
  {
    hide RecordsAsOf;
  }

  lemma {:induction false} BlockingIs(st: Store, k: Key)
    ensures k in Blocking(st) <==> k in Open(st.rows) || k in HoldingKeys(st.removals)
  {
    hide Open, HoldingKeys;
  }

  lemma {:induction false} PublishedShows(env: SourceId -> Env, w: World, s: SourceId, k: Key)
    requires WorldOk(env, w) && w.snapshots != [] && s in w.sources && w.sources[s].store.current.Some?
    ensures var snap := w.snapshots[|w.snapshots| - 1];
            && (Shows(w.sources, snap, s, k, false) <==> k in Open(w.sources[s].store.rows))
            && (Shows(w.sources, snap, s, k, true) <==> k in HoldingKeys(w.sources[s].store.removals))
            && !(k in Open(w.sources[s].store.rows) && k in HoldingKeys(w.sources[s].store.removals))
  {
    var st := w.sources[s].store;
    assert StoreOk(st);
    assert RemovalsOk(st.removals, st.rows, Open(st.rows));
    hide MachineOk, StoreOk, Shows, Cut, RemovalsOk;
    ShowsOpen(w.sources, s, k);
    ShowsHeld(w.sources, s, k);
    if k in Open(st.rows) {
      OpenNotHeld(st.removals, st.rows, k);
    }
  }

  // ---------------------------------------------------------------------------------------------
  // The cross-list index
  // ---------------------------------------------------------------------------------------------

  /**
   The identifier leads to its record under this value: a UN, OFAC or LEI code, an IMO number with a valid checksum, or
   a registration or passport number together with the country that issued it.
   */
  predicate FoundUnder(x: Identifier, value: string) {
    || (x.kind in {UnRef, OfacUid, Lei} && value == x.valueNorm)
    || (x.kind == Imo && x.checksumValid && value == x.valueNorm)
    || (x.kind in {Registration, Passport} && x.country.Some? && value == x.valueNorm + "|" + x.country.value)
  }

  /** The document carries an identifier of this kind that leads to its record under this value. */
  predicate Carries(d: Doc, kind: IdKind, value: string) {
    exists j :: 0 <= j < |d.identifiers| && d.identifiers[j].kind == kind && FoundUnder(d.identifiers[j], value)
  }

  lemma {:induction false} FoundUnderIff(x: Identifier, value: string)
    ensures FoundUnder(x, value) <==> Indexed(x) && CrossValue(x) == value
  {
  }

  /** Two identifiers meet in the index exactly when they are the same code, and of the same country where that counts. */
  lemma {:induction false} MeetIff(x: Identifier, y: Identifier)
    requires Indexed(x) && Indexed(y) && x.kind == y.kind
    requires x.country.Some? ==> '|' !in x.country.value
    requires y.country.Some? ==> '|' !in y.country.value
    ensures CrossValue(x) == CrossValue(y) <==> x.valueNorm == y.valueNorm && (x.kind in {Registration, Passport} ==> x.country == y.country)
  {
    if x.kind in {Registration, Passport} {
      LastBar(x.valueNorm, x.country.value, y.valueNorm, y.country.value);
    }
  }

  lemma {:induction false} LastBar(a: string, b: string, c: string, d: string)
    requires '|' !in b && '|' !in d
    ensures a + "|" + b == c + "|" + d <==> a == c && b == d
  {
    var s, t := a + "|" + b, c + "|" + d;
    forall i | |a| < i < |s| ensures s[i] != '|' {
      assert s[i] == b[i - |a| - 1];
    }
    forall i | |c| < i < |t| ensures t[i] != '|' {
      assert t[i] == d[i - |c| - 1];
    }
    if s == t {
      assert s[|a|] == '|' && t[|c|] == '|';
      assert a == s[..|a|] && c == t[..|c|] && b == s[|a| + 1..] && d == t[|c| + 1..];
    }
  }

  /** The index leads from an identifier to a record. */
  ghost predicate Leads(st: Store, kind: IdKind, value: string, k: Key) {
    exists i :: CrossKey(kind, value, k, i) in st.crosslist
  }

  lemma {:induction false} RowKeysCarry(i: nat, r: Row, x: CrossKey)
    ensures x in RowKeys(i, r) <==> x.row == i && x.key == r.key && Carries(r.doc, x.kind, x.value)
  {
    var ids := r.doc.identifiers;
    forall j | 0 <= j < |ids| ensures FoundUnder(ids[j], x.value) <==> Indexed(ids[j]) && CrossValue(ids[j]) == x.value {
      FoundUnderIff(ids[j], x.value);
    }
    hide FoundUnder, Indexed, CrossValue;
    if x.row == i && x.key == r.key && Carries(r.doc, x.kind, x.value) {
      var j :| 0 <= j < |ids| && ids[j].kind == x.kind && FoundUnder(ids[j], x.value);
      assert x == CrossKey(ids[j].kind, CrossValue(ids[j]), r.key, i);
    }
  }

  /** An entry is in the index exactly when its row is open, has its key and carries its identifier. */
  lemma {:induction false} EntryIff(st: Store, x: CrossKey)
    requires StoreOk(st)
    ensures x in st.crosslist <==>
              x.row < |st.rows| && IsOpen(st.rows[x.row]) && st.rows[x.row].key == x.key && Carries(st.rows[x.row].doc, x.kind, x.value)
  {
    assert st.crosslist == CrosslistOf(st.rows);
    hide StoreOk, Carries, RowKeys;
    if x.row < |st.rows| {
      RowKeysCarry(x.row, st.rows[x.row], x);
    }
    forall i | 0 <= i < |st.rows| && x in RowKeys(i, st.rows[i]) ensures i == x.row {
      RowKeysCarry(i, st.rows[i], x);
    }
  }

  lemma {:induction false} LeadsIff(st: Store, kind: IdKind, value: string, k: Key)
    requires StoreOk(st)
    ensures Leads(st, kind, value, k) <==> k in Open(st.rows) && Carries(Open(st.rows)[k], kind, value)
  {
    OpenSound(st.rows, Pub(st));
    hide Open, Carries;
    if Leads(st, kind, value, k) {
      var i :| CrossKey(kind, value, k, i) in st.crosslist;
      EntryIff(st, CrossKey(kind, value, k, i));
    }
    if k in Open(st.rows) && Carries(Open(st.rows)[k], kind, value) {
      var i := OpenRowOf(st.rows, Open(st.rows), k);
      EntryIff(st, CrossKey(kind, value, k, i));
    }
  }

  /**
   After every history from the empty system, the cross-list index of every source leads from an identifier to a
   record exactly when that record is listed now and carries the identifier.
   */
  lemma {:induction false} CrosslistIsExact(env: SourceId -> Env, es: seq<WorldEvent>, s: SourceId, kind: IdKind, value: string, k: Key)
    requires s in WorldRun(env, World(map[], []), es).sources
    ensures var st := WorldRun(env, World(map[], []), es).sources[s].store;
            Leads(st, kind, value, k) <==> k in Open(st.rows) && Carries(Open(st.rows)[k], kind, value)
  {
    EmptyWorldOk(env);
    WorldRunKeepsWorldOk(env, World(map[], []), es);
    var w := WorldRun(env, World(map[], []), es);
    assert MachineOk(env(s), w.sources[s]);
    assert StoreOk(w.sources[s].store);
    hide MachineOk, WorldRun, StoreOk, Leads, Carries, Open;
    LeadsIff(w.sources[s].store, kind, value, k);
  }
}
