/** The data-level gate: quarantine a file that cannot be trusted, hold a plausible but large change, else pass. */
module Validation {
  import opened Base
  import opened Canonical
  import opened Staging
  import M = Metrics

  /** The least fill rate a field of an entity type may have. */
  datatype Floor = Floor(entityType: EntityType, name: M.FieldName, least: real)

  datatype Config = Config(
    minRecords: nat, maxRemovedPct: real, maxRemovedAbs: nat, maxAddedPct: real, maxAddedAbs: nat,
    floors: seq<Floor>, fillWarnMargin: real, driftQuarantines: bool, requireMarker: bool)

  /** One configured fill-rate floor with the rate measured; no rate when the list has no record of that type. */
  datatype Fill = Fill(rate: Option<real>, floor: real)

  /** Everything the gate looks at besides the diff; a parser warning of a name no category has is None. */
  datatype Quality = Quality(
    records: nat, skipped: nat, duplicates: nat, warnings: seq<Option<Category>>, unknownPaths: nat, fills: seq<Fill>,
    badImo: nat, badLei: nat, unmapped: nat, unknownDob: nat)

  datatype ErrorClass = CountAnomaly | ParserError | SchemaDrift | FillRateBelowFloor

  datatype Verdict = Pass | Hold | Quarantine(error: ErrorClass)

  datatype Severity = Warn | Fail

  datatype Category =
    | CountIssue | ParseIssue | DuplicateKey | DriftIssue | FillIssue | ChecksumIssue | UnmappedCountry | DateIssue
    | MarkerRegression | EnrichmentBacklog | SchemaInvalid | MissingField

  datatype Issue = Issue(category: Category, severity: Severity)

  function SkippedShare(q: Quality): real {
    q.skipped as real / (if q.records + q.skipped == 0 then 1 else q.records + q.skipped) as real
  }

  predicate TooFew(cfg: Config, q: Quality) { q.records < cfg.minRecords }

  predicate TooManySkipped(q: Quality) { 0 < q.skipped && SkippedShare(q) > 0.01 }

  predicate Drifted(cfg: Config, q: Quality) { 0 < q.unknownPaths && cfg.driftQuarantines }

  predicate BelowFloor(f: Fill) { f.rate.Some? && f.rate.value < f.floor }

  predicate AnyBelowFloor(fills: seq<Fill>) { exists i :: 0 <= i < |fills| && BelowFloor(fills[i]) }

  /** The first failing check, in the order the gate runs them. */
  function FirstFailure(cfg: Config, q: Quality): Option<ErrorClass> {
    if TooFew(cfg, q) then Some(CountAnomaly)
    else if TooManySkipped(q) then Some(ParserError)
    else if Drifted(cfg, q) then Some(SchemaDrift)
    else if AnyBelowFloor(q.fills) then Some(FillRateBelowFloor)
    else None
  }

  predicate ManyRemovals(cfg: Config, d: Diff) {
    0 < d.previous && (d.removed > cfg.maxRemovedAbs || 100.0 * d.removed as real / d.previous as real > cfg.maxRemovedPct)
  }

  predicate ManyAdditions(cfg: Config, d: Diff) {
    0 < d.previous && d.added > cfg.maxAddedAbs && 100.0 * d.added as real / d.previous as real > cfg.maxAddedPct
  }

  /** The gate as one expression. */
  function Judge(cfg: Config, q: Quality, diff: Option<Diff>): Verdict {
    if FirstFailure(cfg, q).Some? then Quarantine(FirstFailure(cfg, q).value)
    else if diff.Some? && (ManyRemovals(cfg, diff.value) || ManyAdditions(cfg, diff.value)) then Hold
    else Pass
  }

  /**
   The verdict in the figures themselves. A file is quarantined for the first of: too few records, more than one in a
   hundred skipped, unknown paths where the policy forbids them, a measured rate below its floor. Otherwise it is held
   exactly when there was a list before and the removals pass either bound or the additions pass both.
   */
  lemma {:induction false} VerdictIff(cfg: Config, q: Quality, diff: Option<Diff>)
    ensures var v := Judge(cfg, q, diff);
            var enough, read := cfg.minRecords <= q.records, 100 * q.skipped <= q.records + q.skipped;
            var known := q.unknownPaths == 0 || !cfg.driftQuarantines;
            var filled := forall i :: 0 <= i < |q.fills| && q.fills[i].rate.Some? ==> q.fills[i].floor <= q.fills[i].rate.value;
            && (!v.Quarantine? <==> enough && read && known && filled)
            && (v == Quarantine(CountAnomaly) <==> !enough)
            && (v == Quarantine(ParserError) <==> enough && !read)
            && (v == Quarantine(SchemaDrift) <==> enough && read && !known)
            && (v == Quarantine(FillRateBelowFloor) <==> enough && read && known && !filled)
    ensures Judge(cfg, q, diff) == Hold <==>
              && !Judge(cfg, q, diff).Quarantine? && diff.Some? && 0 < diff.value.previous
              && var d, n := diff.value, diff.value.previous as real;
              || cfg.maxRemovedAbs < d.removed || cfg.maxRemovedPct * n < 100.0 * d.removed as real
              || (cfg.maxAddedAbs < d.added && cfg.maxAddedPct * n < 100.0 * d.added as real)
  {
    SkippedIff(q);
    assert forall i :: 0 <= i < |q.fills| && BelowFloor(q.fills[i]) ==> q.fills[i].rate.Some? && q.fills[i].rate.value < q.fills[i].floor;
    if diff.Some? && 0 < diff.value.previous {
      OverShare(100.0 * diff.value.removed as real, diff.value.previous as real, cfg.maxRemovedPct);
      OverShare(100.0 * diff.value.added as real, diff.value.previous as real, cfg.maxAddedPct);
    }
    hide SkippedShare;
  }

  lemma {:induction false} SkippedIff(q: Quality)
    ensures TooManySkipped(q) <==> q.records + q.skipped < 100 * q.skipped
  {
    if 0 < q.skipped {
      OverShare(q.skipped as real, (q.records + q.skipped) as real, 0.01);
    }
  }

  lemma {:induction false} OverShare(x: real, n: real, pct: real)
    requires 0.0 < n
    ensures x / n > pct <==> pct * n < x
  {
    assert x == (x / n) * n;
  }

  /** A file that passes removes at most the configured number and the configured share of the current list. */
  lemma {:induction false} PassBoundsRemovals(cfg: Config, q: Quality, d: Diff)
    requires Judge(cfg, q, Some(d)) == Pass && d.removed <= d.previous
    ensures d.removed <= cfg.maxRemovedAbs || d.previous == 0
    ensures d.removed == 0 || (d.removed <= cfg.maxRemovedAbs && 100.0 * d.removed as real <= cfg.maxRemovedPct * d.previous as real)
  {
    if 0 < d.previous {
      ShareBound(100.0 * d.removed as real, d.previous as real, cfg.maxRemovedPct);
    }
  }

  /** Additions hold a file only when they exceed both bounds, so a file that passes keeps to one of them. */
  lemma {:induction false} PassBoundsAdditions(cfg: Config, q: Quality, d: Diff)
    requires Judge(cfg, q, Some(d)) == Pass && 0 < d.previous
    ensures d.added <= cfg.maxAddedAbs || 100.0 * d.added as real <= cfg.maxAddedPct * d.previous as real
  {
    if cfg.maxAddedAbs < d.added {
      ShareBound(100.0 * d.added as real, d.previous as real, cfg.maxAddedPct);
    }
  }

  lemma {:induction false} ShareBound(x: real, n: real, pct: real)
    requires 0.0 < n && !(x / n > pct)
    ensures x <= pct * n
  {
    assert x == (x / n) * n;
  }

  /** The mutable result the checks write into. */
  class ValidationResult {
    var outcome: Verdict
    var issues: seq<Issue>

    constructor ()
      ensures outcome == Pass && issues == []
    {
      outcome, issues := Pass, [];
    }

    /** Record a failing issue; the first one fixes the error class. */
    method FailWith(issue: Issue, error: ErrorClass)
      modifies this
      ensures issues == old(issues) + [issue]
      ensures outcome == if old(outcome).Quarantine? then old(outcome) else Quarantine(error)
    {
      issues := issues + [issue];
      if !outcome.Quarantine? {
        outcome := Quarantine(error);
      }
    }

    method Note(category: Category)
      modifies this
      ensures outcome == old(outcome) && issues == old(issues) + [Issue(category, Warn)]
    {
      issues := issues + [Issue(category, Warn)];
    }
  }

  // ---------------------------------------------------------------------------------------------
  // The report
  // ---------------------------------------------------------------------------------------------

  function If(b: bool, category: Category, severity: Severity): seq<Issue> { if b then [Issue(category, severity)] else [] }

  /** Every parser warning but a plain parse warning is listed, under its own category if there is one. */
  function WarningIssues(warnings: seq<Option<Category>>): seq<Issue> {
    if warnings == [] then []
    else
      var w := warnings[|warnings| - 1];
      WarningIssues(warnings[..|warnings| - 1]) + If(w != Some(ParseIssue), if w.Some? then w.value else ParseIssue, Warn)
  }

  function FillIssues(margin: real, fills: seq<Fill>): seq<Issue> {
    if fills == [] then []
    else
      var f := fills[|fills| - 1];
      FillIssues(margin, fills[..|fills| - 1])
      + (if BelowFloor(f) then [Issue(FillIssue, Fail)]
         else If(f.rate.Some? && f.rate.value < f.floor + margin, FillIssue, Warn))
  }

  function VolumeIssues(cfg: Config, q: Quality): seq<Issue> {
    If(TooFew(cfg, q), CountIssue, Fail)
    + If(0 < q.skipped, ParseIssue, if TooManySkipped(q) then Fail else Warn)
    + If(0 < q.duplicates, DuplicateKey, Warn)
    + WarningIssues(q.warnings)
  }

  function FileIssues(cfg: Config, q: Quality): seq<Issue> {
    VolumeIssues(cfg, q)
    + If(0 < q.unknownPaths, DriftIssue, if cfg.driftQuarantines then Fail else Warn)
    + FillIssues(cfg.fillWarnMargin, q.fills)
  }

  function ValueIssues(q: Quality): seq<Issue> {
    If(0 < q.badImo, ChecksumIssue, Warn)
    + If(0 < q.badLei, ChecksumIssue, Warn)
    + If(0 < q.unmapped, UnmappedCountry, Warn)
    + If(0 < q.unknownDob, DateIssue, Warn)
  }

  predicate LargeChange(cfg: Config, diff: Option<Diff>) {
    diff.Some? && (ManyRemovals(cfg, diff.value) || ManyAdditions(cfg, diff.value))
  }

  /** What the report lists, in the order of the checks. */
  function Report(cfg: Config, q: Quality, diff: Option<Diff>): seq<Issue> {
    FileIssues(cfg, q) + ValueIssues(q) + If(LargeChange(cfg, diff), CountIssue, Warn)
  }

  ghost predicate Lists(issues: seq<Issue>, category: Category, severity: Severity) { Issue(category, severity) in issues }

  lemma {:induction false} WarningsListed(warnings: seq<Option<Category>>, category: Category, severity: Severity)
    ensures Lists(WarningIssues(warnings), category, severity) <==>
              severity == Warn && if category == ParseIssue then None in warnings else Some(category) in warnings
  {
    if warnings != [] {
      WarningsListed(warnings[..|warnings| - 1], category, severity);
      assert forall w :: w in warnings <==> w in warnings[..|warnings| - 1] || w == warnings[|warnings| - 1];
    }
  }

  lemma {:induction false} FillsListed(margin: real, fills: seq<Fill>, category: Category, severity: Severity)
    ensures Lists(FillIssues(margin, fills), category, severity) <==>
              category == FillIssue && exists i :: 0 <= i < |fills| && fills[i].rate.Some? && var f := fills[i];
                if severity == Fail then f.rate.value < f.floor else f.floor <= f.rate.value < f.floor + margin
  {
    if fills != [] {
      var n := |fills| - 1;
      FillsListed(margin, fills[..n], category, severity);
      if i :| 0 <= i < n && fills[..n][i].rate.Some? && var f := fills[..n][i];
                if severity == Fail then f.rate.value < f.floor else f.floor <= f.rate.value < f.floor + margin {
        assert fills[i] == fills[..n][i];
      }
    }
  }

  /** The report is honest: it lists a failing issue exactly when the file is quarantined. */
  lemma {:induction false} ReportIsHonest(cfg: Config, q: Quality, diff: Option<Diff>)
    ensures (exists category :: Lists(Report(cfg, q, diff), category, Fail)) <==> Judge(cfg, q, diff).Quarantine?
  {
    ReportListsIff(cfg, q, diff);
    VerdictIff(cfg, q, diff);
    SkippedIff(q);
    hide Report, Judge, SkippedShare;
    assert Lists(Report(cfg, q, diff), CountIssue, Fail) || Lists(Report(cfg, q, diff), ParseIssue, Fail)
           || Lists(Report(cfg, q, diff), DriftIssue, Fail) || Lists(Report(cfg, q, diff), FillIssue, Fail)
           <==> Judge(cfg, q, diff).Quarantine?;
  }

  /** A failing issue of this category is due. */
  ghost predicate Fails(cfg: Config, q: Quality, category: Category) {
    match category
    case CountIssue => q.records < cfg.minRecords
    case ParseIssue => q.records + q.skipped < 100 * q.skipped
    case DriftIssue => 0 < q.unknownPaths && cfg.driftQuarantines
    case FillIssue => exists i :: 0 <= i < |q.fills| && q.fills[i].rate.Some? && q.fills[i].rate.value < q.fills[i].floor
    case _ => false
  }

  /** A warning of this category is due. */
  ghost predicate Warns(cfg: Config, q: Quality, diff: Option<Diff>, category: Category) {
    || (if category == ParseIssue then None in q.warnings else Some(category) in q.warnings)
    || match category
       case CountIssue => LargeChange(cfg, diff)
       case ParseIssue => 0 < q.skipped && 100 * q.skipped <= q.records + q.skipped
       case DuplicateKey => 0 < q.duplicates
       case DriftIssue => 0 < q.unknownPaths && !cfg.driftQuarantines
       case FillIssue => exists i :: 0 <= i < |q.fills| && q.fills[i].rate.Some?
                                     && q.fills[i].floor <= q.fills[i].rate.value < q.fills[i].floor + cfg.fillWarnMargin
       case ChecksumIssue => 0 < q.badImo || 0 < q.badLei
       case UnmappedCountry => 0 < q.unmapped
       case DateIssue => 0 < q.unknownDob
       case _ => false
  }

  /** Exactly which issues a report lists, category by category. */
  lemma {:induction false} ReportListsIff(cfg: Config, q: Quality, diff: Option<Diff>)
    ensures forall c :: Lists(Report(cfg, q, diff), c, Fail) <==> Fails(cfg, q, c)
    ensures forall c :: Lists(Report(cfg, q, diff), c, Warn) <==> Warns(cfg, q, diff, c)
  {
    SkippedIff(q);
    forall c, severity ensures Lists(Report(cfg, q, diff), c, severity) <==>
                           Lists(FileIssues(cfg, q), c, severity) || Lists(ValueIssues(q), c, severity)
                           || Lists(If(LargeChange(cfg, diff), CountIssue, Warn), c, severity)
    {
      hide FileIssues, ValueIssues, LargeChange, If;
    }
    forall c, severity ensures Lists(FileIssues(cfg, q), c, severity) <==> FileLists(cfg, q, c, severity) {
      FileIssuesListed(cfg, q, c, severity);
    }
    forall c, severity ensures Lists(ValueIssues(q), c, severity) <==> ValueLists(q, c, severity) {
    }
    hide Report, FileIssues, ValueIssues, LargeChange, TooManySkipped, SkippedShare;
  }

  ghost predicate ValueLists(q: Quality, c: Category, severity: Severity) {
    && severity == Warn
    && ((c == ChecksumIssue && (0 < q.badImo || 0 < q.badLei)) || (c == UnmappedCountry && 0 < q.unmapped) || (c == DateIssue && 0 < q.unknownDob))
  }

  ghost predicate FileLists(cfg: Config, q: Quality, c: Category, severity: Severity) {
    || (c == DuplicateKey && severity == Warn && 0 < q.duplicates)
    || (severity == Warn && if c == ParseIssue then None in q.warnings else Some(c) in q.warnings)
    || (c == CountIssue && severity == Fail && TooFew(cfg, q))
    || (c == ParseIssue && 0 < q.skipped && (severity == Fail <==> TooManySkipped(q)))
    || (c == DriftIssue && 0 < q.unknownPaths && (severity == Fail <==> cfg.driftQuarantines))
    || (c == FillIssue && exists i :: 0 <= i < |q.fills| && q.fills[i].rate.Some? && var f := q.fills[i];
          if severity == Fail then f.rate.value < f.floor else f.floor <= f.rate.value < f.floor + cfg.fillWarnMargin)
  }

  lemma {:induction false} FileIssuesListed(cfg: Config, q: Quality, c: Category, severity: Severity)
    ensures Lists(FileIssues(cfg, q), c, severity) <==> FileLists(cfg, q, c, severity)
  {
    WarningsListed(q.warnings, c, severity);
    FillsListed(cfg.fillWarnMargin, q.fills, c, severity);
    hide WarningIssues, FillIssues, SkippedShare, TooManySkipped, TooFew;
  }

  // ---------------------------------------------------------------------------------------------
  // The checks
  // ---------------------------------------------------------------------------------------------

  /** All checks in order: the outcome is `Judge`, the issues are `Report`. */
  method ValidateData(cfg: Config, q: Quality, diff: Option<Diff>) returns (res: ValidationResult)
    ensures fresh(res)
    ensures res.outcome == Judge(cfg, q, diff) && res.issues == Report(cfg, q, diff)
    ensures (exists category :: Lists(res.issues, category, Fail)) <==> res.outcome.Quarantine?
  {
    ReportIsHonest(cfg, q, diff);
    hide FirstFailure, FileIssues, ValueIssues, ManyRemovals, ManyAdditions, If;
    res := new ValidationResult();
    CheckFile(res, cfg, q);
    CheckValues(res, q);
    CheckChange(res, cfg, diff);
    assert [] + FileIssues(cfg, q) == FileIssues(cfg, q);
  }

  /** Volume, drift and fill rates: whatever can quarantine the file. */
  method CheckFile(res: ValidationResult, cfg: Config, q: Quality)
    requires res.outcome == Pass && res.issues == []
    modifies res
    ensures res.issues == FileIssues(cfg, q)
    ensures res.outcome == if FirstFailure(cfg, q).Some? then Quarantine(FirstFailure(cfg, q).value) else Pass
  {
    hide TooFew, TooManySkipped, VolumeIssues, FillIssues, AnyBelowFloor;
    CheckVolume(res, cfg, q);
    if 0 < q.unknownPaths {
      if cfg.driftQuarantines {
        res.FailWith(Issue(DriftIssue, Fail), SchemaDrift);
      } else {
        res.Note(DriftIssue);
      }
    }
    CheckFloors(res, cfg, q.fills);
  }

  method CheckVolume(res: ValidationResult, cfg: Config, q: Quality)
    requires res.outcome == Pass && res.issues == []
    modifies res
    ensures res.issues == VolumeIssues(cfg, q)
    ensures res.outcome == if TooFew(cfg, q) then Quarantine(CountAnomaly)
                           else if TooManySkipped(q) then Quarantine(ParserError) else Pass
  {
    hide TooFew, TooManySkipped, WarningIssues, If;
    FailIf(res, TooFew(cfg, q), CountIssue, CountAnomaly);
    CheckSkipped(res, q);
    NoteIf(res, 0 < q.duplicates, DuplicateKey);
    NoteWarnings(res, q.warnings);
    assert [] + If(TooFew(cfg, q), CountIssue, Fail) == If(TooFew(cfg, q), CountIssue, Fail);
  }

  /** Identifiers, countries and dates only ever warn. */
  method CheckValues(res: ValidationResult, q: Quality)
    modifies res
    ensures res.outcome == old(res.outcome) && res.issues == old(res.issues) + ValueIssues(q)
  {
    NoteIf(res, 0 < q.badImo, ChecksumIssue);
    NoteIf(res, 0 < q.badLei, ChecksumIssue);
    NoteIf(res, 0 < q.unmapped, UnmappedCountry);
    NoteIf(res, 0 < q.unknownDob, DateIssue);
  }

  method FailIf(res: ValidationResult, b: bool, category: Category, error: ErrorClass)
    modifies res
    ensures res.issues == old(res.issues) + If(b, category, Fail)
    ensures res.outcome == if b && !old(res.outcome).Quarantine? then Quarantine(error) else old(res.outcome)
  {
    if b {
      res.FailWith(Issue(category, Fail), error);
    }
  }

  method NoteIf(res: ValidationResult, b: bool, category: Category)
    modifies res
    ensures res.outcome == old(res.outcome) && res.issues == old(res.issues) + If(b, category, Warn)
  {
    if b {
      res.Note(category);
    }
  }

  method CheckSkipped(res: ValidationResult, q: Quality)
    modifies res
    ensures res.issues == old(res.issues) + If(0 < q.skipped, ParseIssue, if TooManySkipped(q) then Fail else Warn)
    ensures res.outcome == if TooManySkipped(q) && !old(res.outcome).Quarantine? then Quarantine(ParserError) else old(res.outcome)
  {
    if 0 < q.skipped {
      if SkippedShare(q) > 0.01 {
        res.FailWith(Issue(ParseIssue, Fail), ParserError);
      } else {
        res.Note(ParseIssue);
      }
    }
  }

  method NoteWarnings(res: ValidationResult, warnings: seq<Option<Category>>)
    modifies res
    ensures res.outcome == old(res.outcome) && res.issues == old(res.issues) + WarningIssues(warnings)
  {
    for i := 0 to |warnings|
      invariant res.outcome == old(res.outcome) && res.issues == old(res.issues) + WarningIssues(warnings[..i])
    {
      assert warnings[..i + 1][..i] == warnings[..i];
      if warnings[i] != Some(ParseIssue) {
        res.Note(if warnings[i].Some? then warnings[i].value else ParseIssue);
      }
    }
    assert warnings[..|warnings|] == warnings;
  }

  /** The fill-rate loop: below a floor fails, within the margin above it warns, a missing type is skipped. */
  method CheckFloors(res: ValidationResult, cfg: Config, fills: seq<Fill>)
    modifies res
    ensures res.outcome == if old(res.outcome).Quarantine? || !AnyBelowFloor(fills) then old(res.outcome)
                           else Quarantine(FillRateBelowFloor)
    ensures res.issues == old(res.issues) + FillIssues(cfg.fillWarnMargin, fills)
  {
    for i := 0 to |fills|
      invariant res.outcome == if old(res.outcome).Quarantine? || !AnyBelowFloor(fills[..i]) then old(res.outcome)
                               else Quarantine(FillRateBelowFloor)
      invariant res.issues == old(res.issues) + FillIssues(cfg.fillWarnMargin, fills[..i])
    {
      var f := fills[i];
      AnyBelowFloorStep(fills, i);
      assert fills[..i + 1][..i] == fills[..i];
      hide AnyBelowFloor;
      if f.rate.None? {
        continue;
      }
      if f.rate.value < f.floor {
        res.FailWith(Issue(FillIssue, Fail), FillRateBelowFloor);
      } else if f.rate.value < f.floor + cfg.fillWarnMargin {
        res.Note(FillIssue);
      }
    }
    assert fills[..|fills|] == fills;
  }

  /** The large-change test: a warning, and a file that would pass is held. */
  method CheckChange(res: ValidationResult, cfg: Config, diff: Option<Diff>)
    modifies res
    ensures var large := LargeChange(cfg, diff);
            && res.issues == old(res.issues) + If(large, CountIssue, Warn)
            && res.outcome == if large && old(res.outcome) == Pass then Hold else old(res.outcome)
  {
    if diff.Some? && 0 < diff.value.previous {
      var reasons := 0;
      if ManyRemovals(cfg, diff.value) {
        reasons := reasons + 1;
      }
      if ManyAdditions(cfg, diff.value) {
        reasons := reasons + 1;
      }
      if reasons != 0 {
        res.Note(CountIssue);
        if res.outcome == Pass {
          res.outcome := Hold;
        }
      }
    }
  }

  lemma {:induction false} AnyBelowFloorStep(fills: seq<Fill>, i: nat)
    requires i < |fills|
    ensures AnyBelowFloor(fills[..i + 1]) <==> AnyBelowFloor(fills[..i]) || BelowFloor(fills[i])
  {
    if AnyBelowFloor(fills[..i]) {
      var j :| 0 <= j < i && BelowFloor(fills[..i][j]);
      assert BelowFloor(fills[..i + 1][j]);
    }
    if BelowFloor(fills[i]) {
      assert BelowFloor(fills[..i + 1][i]);
    }
    if AnyBelowFloor(fills[..i + 1]) && !BelowFloor(fills[i]) {
      var j :| 0 <= j < i + 1 && BelowFloor(fills[..i + 1][j]);
      assert BelowFloor(fills[..i][j]);
    }
  }
}
