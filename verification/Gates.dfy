/**
 What gets past the two gates, in the figures the settings and the file give: the checks of the file itself, and those
 of the records staged from it.
 */
module Gates {
  import opened Base
  import opened Canonical
  import opened Scd2
  import opened ListStore
  import opened Staging
  import opened RunQueue
  import opened Pipeline
  import opened PipelineInvariant
  import opened PipelineSteps
  import opened FillRates
  import M = Metrics
  import V = Validation

  /** The date inside the file is before the date of the version that is live. */
  predicate OlderThanLive(st: Store, stamp: Option<int>) {
    && st.current.Some? && st.current.value < |st.versions|
    && var live := st.versions[st.current.value].stamp;
    && live.Some? && stamp.Some? && stamp.value < live.value
  }

  /**
   From every reachable archived phase the file check rejects the file exactly when the adapter finds fault with it, the
   file is older than the live version, or a publication marker is required and neither the file nor the response to
   this attempt's fetch has one. Otherwise the file is accepted.
   */
  lemma {:induction false} ValidateFileIff(env: Env, m: Machine)
    requires MachineOk(env, m) && Working(m) && m.worker.value.phase.Archived?
    ensures var w, m' := m.worker.value, Step(env, m, ValidateFile);
            var sha, header, reader, v := w.phase.sha, w.phase.header, w.cfg.reader, |m.store.versions|;
            var rejected := !env.fileOk(reader, sha) || OlderThanLive(m.store, env.stamp(reader, sha))
                            || (w.cfg.gate.requireMarker && !env.marker(reader, sha) && !header);
            m'.worker == Some(w.(phase := if rejected then FileRejected(sha, v) else FileChecked(sha, v)))
  {
    VersionsAreOk(env, m);
    hide MachineOk;
    RegressedIffOlder(m.store, env.stamp(m.worker.value.cfg.reader, m.worker.value.phase.sha));
    hide Regressed, OlderThanLive, MaxSeq;
  }

  lemma {:induction false} VersionsAreOk(env: Env, m: Machine)
    requires MachineOk(env, m)
    ensures VersionsOk(m.store.versions, m.store.current)
  {
    hide RowsOk, TimeTravel, RemovalsOk, Accounted, QueueOk, VersionsLinked, ProposalsOk, ReleasesOk, HeldOk, LogLinked, ArchiveOk, WorkerOk;
  }

  lemma {:induction false} RegressedIffOlder(st: Store, stamp: Option<int>)
    requires VersionsOk(st.versions, st.current)
    ensures Regressed(st, stamp) <==> OlderThanLive(st, stamp)
  {
  }

  /**
   Too few records; more than one in a hundred skipped; unknown paths where they are forbidden; or a field too rare among
   the records of its type.
   */
  ghost predicate Unfit(gate: V.Config, stats: ParseStats, staged: seq<Rec>) {
    || |staged| < gate.minRecords
    || |staged| + stats.skipped < 100 * stats.skipped
    || (0 < stats.unknownPaths && gate.driftQuarantines)
    || exists i :: 0 <= i < |gate.floors| && TooRare(gate.floors[i], DocsOf(staged))
  }

  /** Of the live keys too many are gone, by number or by share, or too many are new, by number and by share. */
  ghost predicate Large(gate: V.Config, live: set<Key>, listed: set<Key>) {
    var gone, extra, n := |live - listed|, |listed - live|, |live| as real;
    || gate.maxRemovedAbs < gone || gate.maxRemovedPct * n < 100.0 * gone as real
    || (gate.maxAddedAbs < extra && gate.maxAddedPct * n < 100.0 * extra as real)
  }

  /**
   From every reachable parsed phase, the verdict in terms of the staged records, the parser's report and the live list.
   The run is quarantined exactly when the list is unfit; otherwise its version is held exactly when there is a live list
   and the change to it is large.
   */
  lemma {:induction false} ValidateRecordsIff(env: Env, m: Machine)
    requires MachineOk(env, m) && Working(m) && m.worker.value.phase.Parsed?
    ensures var w, m' := m.worker.value, Step(env, m, ValidateRecords);
            var v, staged := w.phase.version, StagedOf(m, w.run);
            var unfit := Unfit(w.cfg.gate, env.stats(w.cfg.reader, w.phase.sha), staged);
            var live := Open(m.store.rows).Keys;
            && v < |m'.store.versions| && w.run < |m'.runs|
            && (m'.runs[w.run].status == RunQuarantined <==> unfit)
            && m'.store.versions[v].status
               == (if unfit then Quarantined else if live != {} && Large(w.cfg.gate, live, AsMap(staged).Keys) then Held else Validated)
  {
    var w := m.worker.value;
    hide *;
    WorkerRunning(env, m);
    ParsedFacts(env, m);
    VerdictWritten(env, m);
    VerdictInFigures(env, w.cfg, w.phase.sha, Open(m.store.rows), StagedOf(m, w.run));
  }

  /** Among the records of the floor's type, and there are some, the share of those that have the field is below the floor. */
  ghost predicate TooRare(f: V.Floor, docs: seq<Doc>) {
    var typed, filled := Those(docs, IsOf(f.entityType)), Those(docs, HasOf(f.entityType, f.name));
    typed != {} && |filled| as real < f.least * |typed| as real
  }

  lemma {:induction false} BelowFloorIffTooRare(f: V.Floor, docs: seq<Doc>)
    ensures V.BelowFloor(V.Fill(M.FillRate(M.SourceFields, docs, f.entityType, f.name), f.least)) <==> TooRare(f, docs)
  {
    FillRateIsAShareOfCounts(docs, f.entityType, f.name);
    hide Those, M.FillRate, HasOf;
    var typed, filled := Those(docs, IsOf(f.entityType)), Those(docs, HasOf(f.entityType, f.name));
    if typed != {} {
      V.OverShare(|filled| as real, |typed| as real, f.least);
      UnderShare(|filled| as real, |typed| as real, f.least);
    }
  }

  lemma {:induction false} UnderShare(x: real, n: real, share: real)
    requires 0.0 < n
    ensures x / n < share <==> x < share * n
  {
    assert x == (x / n) * n;
  }

  lemma {:induction false} AnyTooRare(floors: seq<V.Floor>, docs: seq<Doc>)
    ensures (forall i :: 0 <= i < |floors| && FillsOf(floors, docs)[i].rate.Some? ==> FillsOf(floors, docs)[i].floor <= FillsOf(floors, docs)[i].rate.value)
       <==> !(exists i :: 0 <= i < |floors| && TooRare(floors[i], docs))
  {
    hide TooRare, M.FillRate;
    forall i | 0 <= i < |floors| ensures V.BelowFloor(FillsOf(floors, docs)[i]) <==> TooRare(floors[i], docs) {
      BelowFloorIffTooRare(floors[i], docs);
    }
  }

  /** The verdict on any staged list, in figures. */
  lemma {:induction false} VerdictInFigures(env: Env, cfg: Settings, sha: Sha, open: map<Key, Doc>, staged: seq<Rec>)
    ensures var verdict := VerdictOn(env, cfg, sha, open, staged);
            && (verdict.Quarantine? <==> Unfit(cfg.gate, env.stats(cfg.reader, sha), staged))
            && (verdict == V.Hold <==> !verdict.Quarantine? && open.Keys != {} && Large(cfg.gate, open.Keys, AsMap(staged).Keys))
  {
    hide *;
    var q, d := QualityOf(env, cfg, sha, staged), Preview(open, AsMap(staged));
    VerdictIs(env, cfg, sha, open, staged);
    QualityIs(env, cfg, sha, staged);
    PreviewIs(open, AsMap(staged));
    UnfitIff(cfg.gate, q, env.stats(cfg.reader, sha), staged, Some(d));
    LargeIff(cfg.gate, q, d, open.Keys, AsMap(staged).Keys);
  }

  lemma {:induction false} VerdictIs(env: Env, cfg: Settings, sha: Sha, open: map<Key, Doc>, staged: seq<Rec>)
    ensures VerdictOn(env, cfg, sha, open, staged) == V.Judge(cfg.gate, QualityOf(env, cfg, sha, staged), Some(Preview(open, AsMap(staged))))
  {
    hide V.Judge, QualityOf, Preview, AsMap;
  }

  lemma {:induction false} QualityIs(env: Env, cfg: Settings, sha: Sha, staged: seq<Rec>)
    ensures var q, stats := QualityOf(env, cfg, sha, staged), env.stats(cfg.reader, sha);
            && q.records == |staged| && q.skipped == stats.skipped && q.unknownPaths == stats.unknownPaths
            && q.fills == FillsOf(cfg.gate.floors, DocsOf(staged))
  {
    hide FillsOf, DocsOf, M.Total, M.Shortfall;
  }

  lemma {:induction false} PreviewIs(open: map<Key, Doc>, staged: map<Key, Doc>)
    ensures var d := Preview(open, staged);
            d.previous == |open.Keys| && d.added == |staged.Keys - open.Keys| && d.removed == |open.Keys - staged.Keys|
  {
  }

  lemma {:induction false} UnfitIff(gate: V.Config, q: V.Quality, stats: ParseStats, staged: seq<Rec>, diff: Option<Diff>)
    requires q.records == |staged| && q.skipped == stats.skipped && q.unknownPaths == stats.unknownPaths
    requires q.fills == FillsOf(gate.floors, DocsOf(staged))
    ensures V.Judge(gate, q, diff).Quarantine? <==> Unfit(gate, stats, staged)
  {
    AnyTooRare(gate.floors, DocsOf(staged));
    assert |q.fills| == |gate.floors|;
    hide V.Judge, FillsOf, DocsOf, TooRare;
    V.VerdictIff(gate, q, diff);
  }

  lemma {:induction false} LargeIff(gate: V.Config, q: V.Quality, d: Diff, live: set<Key>, listed: set<Key>)
    requires d.previous == |live| && d.added == |listed - live| && d.removed == |live - listed|
    ensures V.Judge(gate, q, Some(d)) == V.Hold <==> !V.Judge(gate, q, Some(d)).Quarantine? && live != {} && Large(gate, live, listed)
  {
    hide V.Judge;
    V.VerdictIff(gate, q, Some(d));
  }

  /** What the verdict does to the run and its version. */
  lemma {:induction false} VerdictWritten(env: Env, m: Machine)
    requires MachineOk(env, m) && Working(m) && m.worker.value.phase.Parsed? && Me(m).status == Running
    requires m.worker.value.phase.version < |m.store.versions|
    ensures var w, m' := m.worker.value, Step(env, m, ValidateRecords);
            var verdict := VerdictOn(env, w.cfg, w.phase.sha, Open(m.store.rows), StagedOf(m, w.run));
            && w.phase.version < |m'.store.versions| && w.run < |m'.runs|
            && (m'.runs[w.run].status == RunQuarantined <==> verdict.Quarantine?)
            && m'.store.versions[w.phase.version].status
               == (match verdict case Quarantine(_) => Quarantined case Hold => Held case Pass => Validated)
  {
    hide MachineOk, VerdictOn;
  }

  /**
   What the warnings are about: records dropped for a key that was there before, invalid ship and entity codes, unmapped
   countries, and persons whose dates of birth none of which can be read.
   */
  lemma {:induction false} QualityMeans(env: Env, cfg: Settings, sha: Sha)
    ensures var recs, staged := env.records(cfg.reader, sha), Content(env, cfg.reader, sha);
            var q, docs := QualityOf(env, cfg, sha, staged), DocsOf(staged);
            && |staged| + q.duplicates == |recs|
            && M.Total(M.SourceFields, M.ImoValid, docs) + q.badImo == M.Total(M.SourceFields, M.ImoSeen, docs)
            && M.Total(M.SourceFields, M.LeiValid, docs) + q.badLei == M.Total(M.SourceFields, M.LeiSeen, docs)
            && q.unmapped == M.Total(M.SourceFields, M.UnmappedValues, docs)
            && q.unknownDob == |Those(docs, BestIs(Some(Unparsed)))|
  {
    var docs := DocsOf(Content(env, cfg.reader, sha));
    FirstByKeyDistinct(env.records(cfg.reader, sha));
    M.PartsAreParts(M.SourceFields, docs);
    PrecisionsCount(docs, Some(Unparsed));
    hide M.Total, DocsOf, FirstByKey, FillsOf, Those;
  }
}
