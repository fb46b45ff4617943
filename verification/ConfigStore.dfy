/**
 Versioned source configuration: optimistic locking, maker-checker for sensitive changes, rollback. Version
 numbers are positions in the version table, counted from one, as `max(version) + 1` makes them.
 */
module ConfigStore {
  import opened Base
  import opened Canonical
  import opened ConfigTree
  import S = Schedule

  datatype VersionStatus = PendingApproval | Active | Superseded | Rejected

  datatype ConfigVersion = ConfigVersion(config: Json, schedule: S.Seed, diff: seq<string>, changedBy: Actor, status: VersionStatus)

  datatype ChangeStatus = Awaiting | Declined | Applied

  /** A CONFIG_CHANGE proposal: version `version` was diffed against version `base`. */
  datatype Change = Change(version: nat, base: nat, proposedBy: Actor, status: ChangeStatus, reviewedBy: Option<Actor>)

  /** The source row's configuration columns with the version and proposal tables. */
  datatype Store = Store(
    config: Json, schedule: S.Schedule, version: nat, live: bool, versions: seq<ConfigVersion>, changes: seq<Change>)

  /** What lies outside: the adapter's model validation and normalisation, and the host allow-list. */
  datatype Checks = Checks(normalise: Json -> Option<Json>, hostsAllowed: Json -> bool, floor: int)

  datatype ConfigError = Conflict | Invalid | HostRefused | NoSuchVersion | NoSuchChange | AlreadyDecided | OwnChange | NeedsActivation

  datatype Outcome = Outcome(store: Store, applied: bool, changed: seq<string>)

  predicate ScheduleValid(s: S.Schedule, floor: int) {
    && floor <= s.minInterval && s.cadence.Some? && s.cadence.value != 0 && floor <= s.cadence.value
    && s.warnStaleness <= s.hardMaxStaleness && s.cadence.value <= s.hardMaxStaleness
  }

  function SchedulePath(field: string): string { "schedule." + field }

  /** The fields of the JSON form that differ, in key order. */
  function SchedulePaths(a: S.Seed, b: S.Seed): (r: seq<string>)
    ensures r == [] <==> a == b
  {
    (if a.cadenceMinutes != b.cadenceMinutes then [SchedulePath("cadence_minutes")] else [])
    + (if a.hardMaxHours != b.hardMaxHours then [SchedulePath("hard_max_staleness_hours")] else [])
    + (if a.minIntervalMinutes != b.minIntervalMinutes then [SchedulePath("min_interval_minutes")] else [])
    + (if a.warnHours != b.warnHours then [SchedulePath("warn_staleness_hours")] else [])
  }

  /** Everything a change from one configuration to another touches. */
  function Changed(config: Json, seed: S.Seed, config': Json, seed': S.Seed): seq<string> {
    DiffPaths(config, config', "") + SchedulePaths(seed, seed')
  }

  // ---------------------------------------------------------------------------------------------
  // Transitions
  // ---------------------------------------------------------------------------------------------

  /** Only a seed may create a source that is live at once. */
  function Created(checks: Checks, config: Json, schedule: S.Schedule, actor: Actor, live: bool, seed: bool): Result<Store, ConfigError> {
    var model := checks.normalise(config);
    if model.None? || !ScheduleValid(schedule, checks.floor) then Err(Invalid)
    else if live && !seed then Err(NeedsActivation)
    else if live && !checks.hostsAllowed(model.value) then Err(HostRefused)
    else Ok(Store(model.value, schedule, 1, live, [ConfigVersion(model.value, S.ToJson(schedule), [], actor, Active)], []))
  }

  function Activated(v: ConfigVersion, i: nat, n: nat): ConfigVersion {
    if i + 1 == n then v.(status := Active) else if v.status == Active then v.(status := Superseded) else v
  }

  /** `_apply`: version `n` becomes the active one and the source row mirrors it. */
  function Apply(st: Store, n: nat, config: Json, schedule: S.Schedule): Store {
    st.(config := config, schedule := schedule, version := n,
        versions := seq(|st.versions|, i requires 0 <= i < |st.versions| => Activated(st.versions[i], i, n)))
  }

  /** The next version, written and either proposed for review or put in force at once. */
  function Written(st: Store, config: Json, schedule: S.Schedule, changed: seq<string>, actor: Actor, review: bool): Outcome {
    var n := |st.versions| + 1;
    var st' := st.(versions := st.versions + [ConfigVersion(config, S.ToJson(schedule), changed, actor, PendingApproval)]);
    if review then Outcome(st'.(changes := st.changes + [Change(n, st.version, actor, Awaiting, None)]), false, changed)
    else Outcome(Apply(st', n, config, schedule), true, changed)
  }

  function Update(checks: Checks, st: Store, expected: nat, config: Option<Json>, schedule: Option<S.Schedule>, actor: Actor,
                  trusted: bool, forceReview: bool): Result<Outcome, ConfigError>
  {
    if st.version != expected then Err(Conflict)
    else
      var schedule' := if schedule.Some? then schedule.value else st.schedule;
      var model := checks.normalise(if config.Some? then config.value else st.config);
      if model.None? || !ScheduleValid(schedule', checks.floor) then Err(Invalid)
      else
        var changed := Changed(st.config, S.ToJson(st.schedule), model.value, S.ToJson(schedule'));
        if changed == [] then Ok(Outcome(st, true, []))
        else if st.live && !checks.hostsAllowed(model.value) then Err(HostRefused)
        else Ok(Written(st, model.value, schedule', changed, actor, (AnySensitive(changed) || forceReview) && !trusted))
  }

  function Rollback(checks: Checks, st: Store, to: nat, expected: nat, actor: Actor): Result<Outcome, ConfigError> {
    if to == 0 || |st.versions| < to then Err(NoSuchVersion)
    else
      var v := st.versions[to - 1];
      Update(checks, st, expected, Some(v.config), Some(S.FromSeed(v.schedule)), actor, false, false)
  }

  function Decide(checks: Checks, st: Store, c: nat, reviewer: Actor, approve: bool): Result<Store, ConfigError> {
    if c >= |st.changes| then Err(NoSuchChange)
    else
      var ch := st.changes[c];
      if ch.status != Awaiting then Err(AlreadyDecided)
      else if ch.proposedBy == reviewer then Err(OwnChange)
      else if ch.version == 0 || |st.versions| < ch.version then Err(NoSuchVersion)
      else
        var v := st.versions[ch.version - 1];
        if !approve then
          Ok(st.(changes := st.changes[c := ch.(status := Declined, reviewedBy := Some(reviewer))],
                 versions := st.versions[ch.version - 1 := v.(status := Rejected)]))
        else if st.version != ch.base then Err(Conflict)
        else if !checks.hostsAllowed(v.config) then Err(HostRefused)
        else
          Ok(Apply(st, ch.version, v.config, S.FromSeed(v.schedule))
             .(changes := st.changes[c := ch.(status := Applied, reviewedBy := Some(reviewer))]))
  }

  // ---------------------------------------------------------------------------------------------
  // Invariant
  // ---------------------------------------------------------------------------------------------

  /** A stored schedule that survives being read back and stored again. */
  predicate Stable(d: S.Seed) { S.ToJson(S.FromSeed(d)) == d }

  /** Exactly one version is active, and the source row mirrors it. */
  ghost predicate MirrorOk(st: Store) {
    && 1 <= st.version <= |st.versions|
    && (forall i :: 0 <= i < |st.versions| ==> (st.versions[i].status == Active <==> i + 1 == st.version))
    && st.versions[st.version - 1].config == st.config
    && st.versions[st.version - 1].schedule == S.ToJson(st.schedule)
    && (forall i :: 0 <= i < |st.versions| ==> Stable(st.versions[i].schedule))
  }

  /** A change names a later version than its base, diffed against exactly that base, by its author. */
  ghost predicate ChangeOk(st: Store, ch: Change) {
    && 1 <= ch.base < ch.version <= |st.versions|
    && var b, v := st.versions[ch.base - 1], st.versions[ch.version - 1];
    && v.diff == Changed(b.config, b.schedule, v.config, v.schedule)
    && v.changedBy == ch.proposedBy
    && (ch.status == Awaiting ==> v.status == PendingApproval)
    && (ch.status != Awaiting ==> ch.reviewedBy.Some? && ch.reviewedBy.value != ch.proposedBy)
  }

  ghost predicate StoreOk(st: Store) {
    && MirrorOk(st)
    && (forall c :: 0 <= c < |st.changes| ==> ChangeOk(st, st.changes[c]))
    && (forall c, d :: 0 <= c < d < |st.changes| ==> st.changes[c].version != st.changes[d].version)
  }

  lemma {:induction false} StoredIsStable(s: S.Schedule, floor: int)
    requires ScheduleValid(s, floor) && S.MINUTE <= floor
    ensures Stable(S.ToJson(s))
  {
    S.HoursSurvive(s.warnStaleness, 6.0);
    S.HoursSurvive(s.hardMaxStaleness, 12.0);
    S.MinutesFloor(s.minInterval);
    S.MinutesFloor(s.cadence.value);
    assert S.ToMinutes(s.cadence.value) != 0.0 && s.cadence.value / S.MINUTE * S.MINUTE != 0;
    hide S.FromHours, S.ToHours, S.FromMinutes, S.ToMinutes;
  }

  lemma {:induction false} CreatedOk(checks: Checks, config: Json, schedule: S.Schedule, actor: Actor, live: bool, seed: bool)
    requires S.MINUTE <= checks.floor
    ensures var r := Created(checks, config, schedule, actor, live, seed);
            r.Ok? ==> StoreOk(r.value) && r.value.changes == [] && (live ==> seed && checks.hostsAllowed(r.value.config))
  {
    if ScheduleValid(schedule, checks.floor) {
      StoredIsStable(schedule, checks.floor);
    }
  }

  lemma {:induction false} ApplyOk(st: Store, n: nat, schedule: S.Schedule)
    requires StoreOk(st) && st.version < n <= |st.versions| && S.ToJson(schedule) == st.versions[n - 1].schedule
    requires forall c :: 0 <= c < |st.changes| && st.changes[c].version == n ==> st.changes[c].status != Awaiting
    ensures StoreOk(Apply(st, n, st.versions[n - 1].config, schedule))
  {
    hide S.ToJson, S.FromSeed, Changed;
    var st' := Apply(st, n, st.versions[n - 1].config, schedule);
    forall c | 0 <= c < |st'.changes| ensures ChangeOk(st', st'.changes[c]) {
      assert ChangeOk(st, st.changes[c]);
    }
  }

  lemma {:induction false} AppendVersionOk(st: Store, v: ConfigVersion)
    requires StoreOk(st) && v.status == PendingApproval && Stable(v.schedule)
    ensures StoreOk(st.(versions := st.versions + [v]))
  {
    hide S.ToJson, S.FromSeed, Changed;
    var st' := st.(versions := st.versions + [v]);
    forall c | 0 <= c < |st'.changes| ensures ChangeOk(st', st'.changes[c]) {
      assert ChangeOk(st, st.changes[c]);
    }
  }

  lemma {:induction false} UpdateOk(checks: Checks, st: Store, expected: nat, config: Option<Json>, schedule: Option<S.Schedule>,
                                    actor: Actor, trusted: bool, forceReview: bool)
    requires StoreOk(st) && S.MINUTE <= checks.floor
    ensures var r := Update(checks, st, expected, config, schedule, actor, trusted, forceReview); r.Ok? ==> StoreOk(r.value.store)
  {
    hide S.ToJson, S.FromSeed, Changed, Stable, AnySensitive, ScheduleValid;
    var r := Update(checks, st, expected, config, schedule, actor, trusted, forceReview);
    var schedule' := if schedule.Some? then schedule.value else st.schedule;
    var model := checks.normalise(if config.Some? then config.value else st.config);
    if r.Ok? && r.value.changed != [] {
      StoredIsStable(schedule', checks.floor);
      WrittenOk(st, model.value, schedule', r.value.changed, actor, !r.value.applied);
    }
  }

  lemma {:induction false} WrittenOk(st: Store, config: Json, schedule: S.Schedule, changed: seq<string>, actor: Actor, review: bool)
    requires StoreOk(st) && Stable(S.ToJson(schedule)) && changed == Changed(st.config, S.ToJson(st.schedule), config, S.ToJson(schedule))
    ensures StoreOk(Written(st, config, schedule, changed, actor, review).store)
  {
    hide S.ToJson, S.FromSeed, Changed, Stable;
    var v := ConfigVersion(config, S.ToJson(schedule), changed, actor, PendingApproval);
    var st' := st.(versions := st.versions + [v]);
    AppendVersionOk(st, v);
    if review {
      ProposedOk(st, v);
    } else {
      assert forall c :: 0 <= c < |st.changes| ==> ChangeOk(st, st.changes[c]);
      hide StoreOk, Apply;
      ApplyOk(st', |st.versions| + 1, schedule);
    }
  }

  lemma {:induction false} ProposedOk(st: Store, v: ConfigVersion)
    requires StoreOk(st) && StoreOk(st.(versions := st.versions + [v])) && v.status == PendingApproval
    requires v.diff == Changed(st.config, S.ToJson(st.schedule), v.config, v.schedule)
    ensures StoreOk(st.(versions := st.versions + [v], changes := st.changes + [Change(|st.versions| + 1, st.version, v.changedBy, Awaiting, None)]))
  {
    hide S.ToJson, S.FromSeed, Changed, Stable;
    var ch := Change(|st.versions| + 1, st.version, v.changedBy, Awaiting, None);
    var st1 := st.(versions := st.versions + [v]);
    var st' := st1.(changes := st.changes + [ch]);
    forall c | 0 <= c < |st'.changes| ensures ChangeOk(st', st'.changes[c]) && (c < |st.changes| ==> st'.changes[c].version <= |st.versions|) {
      if c < |st.changes| {
        assert ChangeOk(st1, st.changes[c]) && ChangeOk(st, st.changes[c]);
      }
    }
  }

  lemma {:induction false} ChangeFacts(st: Store, c: nat)
    requires StoreOk(st) && c < |st.changes|
    ensures var ch := st.changes[c];
            && 1 <= ch.base < ch.version <= |st.versions| && 1 <= st.version <= |st.versions|
            && Stable(st.versions[ch.version - 1].schedule)
            && (ch.status == Awaiting ==> st.versions[ch.version - 1].status == PendingApproval)
            && forall d :: 0 <= d < |st.changes| && d != c ==> st.changes[d].version != ch.version
  {
    hide Changed, S.ToJson, S.FromSeed;
    assert ChangeOk(st, st.changes[c]);
  }

  /** The proposal closed, nothing else changed yet. */
  function Closed(st: Store, c: nat, status: ChangeStatus, reviewer: Actor): Store
    requires c < |st.changes|
  {
    st.(changes := st.changes[c := st.changes[c].(status := status, reviewedBy := Some(reviewer))])
  }

  lemma {:induction false} DecideOk(checks: Checks, st: Store, c: nat, reviewer: Actor, approve: bool)
    requires StoreOk(st)
    ensures var r := Decide(checks, st, c, reviewer, approve); r.Ok? ==> StoreOk(r.value)
  {
    hide StoreOk, S.FromSeed, Apply;
    var r := Decide(checks, st, c, reviewer, approve);
    if r.Ok? {
      ChangeFacts(st, c);
      var n := st.changes[c].version;
      if approve {
        ClosedOk(st, c, Applied, reviewer);
        ApplyOk(Closed(st, c, Applied, reviewer), n, S.FromSeed(st.versions[n - 1].schedule));
        ApplyThenClose(st, c, n, st.versions[n - 1].config, S.FromSeed(st.versions[n - 1].schedule), reviewer);
      } else {
        ClosedOk(st, c, Declined, reviewer);
        DeclinedOk(Closed(st, c, Declined, reviewer), n);
      }
    }
  }

  lemma {:induction false} ApplyThenClose(st: Store, c: nat, n: nat, config: Json, schedule: S.Schedule, reviewer: Actor)
    requires c < |st.changes|
    ensures Apply(st, n, config, schedule).changes == st.changes
    ensures Apply(Closed(st, c, Applied, reviewer), n, config, schedule) == Closed(Apply(st, n, config, schedule), c, Applied, reviewer)
  {
  }

  lemma {:induction false} ClosedOk(st: Store, c: nat, status: ChangeStatus, reviewer: Actor)
    requires StoreOk(st) && c < |st.changes| && st.changes[c].proposedBy != reviewer && status != Awaiting
    ensures StoreOk(Closed(st, c, status, reviewer))
  {
    hide S.ToJson, S.FromSeed, Changed, Stable;
    var st' := Closed(st, c, status, reviewer);
    forall d | 0 <= d < |st'.changes| ensures ChangeOk(st', st'.changes[d]) {
      assert ChangeOk(st, st.changes[d]);
    }
  }

  lemma {:induction false} DeclinedOk(st: Store, n: nat)
    requires StoreOk(st) && 1 <= n <= |st.versions| && st.versions[n - 1].status == PendingApproval
    requires forall c :: 0 <= c < |st.changes| && st.changes[c].version == n ==> st.changes[c].status != Awaiting
    ensures StoreOk(st.(versions := st.versions[n - 1 := st.versions[n - 1].(status := Rejected)]))
  {
    hide S.ToJson, S.FromSeed, Changed, Stable;
    var st' := st.(versions := st.versions[n - 1 := st.versions[n - 1].(status := Rejected)]);
    forall d | 0 <= d < |st'.changes| ensures ChangeOk(st', st'.changes[d]) {
      assert ChangeOk(st, st.changes[d]);
    }
  }

  // ---------------------------------------------------------------------------------------------
  // Over any history
  // ---------------------------------------------------------------------------------------------

  datatype Event =
    | Edit(expected: nat, config: Option<Json>, schedule: Option<S.Schedule>, actor: Actor, trusted: bool, forceReview: bool)
    | RollBack(to: nat, expected: nat, actor: Actor)
    | Review(change: nat, reviewer: Actor, approve: bool)
    | Activate      // an approved activation, or an admin's; the hosts are checked
    | Stop          // paused or disabled
    | PauseEnds     // the pause window ended; nothing is checked

  /** One transaction; a refused one leaves everything as it was. */
  function Step(checks: Checks, st: Store, e: Event): Store {
    match e
    case Edit(expected, config, schedule, actor, trusted, forceReview) =>
      var r := Update(checks, st, expected, config, schedule, actor, trusted, forceReview);
      if r.Ok? then r.value.store else st
    case RollBack(to, expected, actor) =>
      var r := Rollback(checks, st, to, expected, actor);
      if r.Ok? then r.value.store else st
    case Review(c, reviewer, approve) =>
      var r := Decide(checks, st, c, reviewer, approve);
      if r.Ok? then r.value else st
    case Activate => if checks.hostsAllowed(st.config) then st.(live := true) else st
    case Stop => st.(live := false)
    case PauseEnds => st.(live := true)
  }

  function Run(checks: Checks, st: Store, es: seq<Event>): Store {
    if es == [] then st else Step(checks, Run(checks, st, es[..|es| - 1]), es[|es| - 1])
  }

  lemma {:induction false} StepKeepsStoreOk(checks: Checks, st: Store, e: Event)
    requires StoreOk(st) && S.MINUTE <= checks.floor
    ensures StoreOk(Step(checks, st, e))
  {
    hide StoreOk, Update, Decide, S.FromSeed;
    match e {
      case Edit(expected, config, schedule, actor, trusted, forceReview) =>
        UpdateOk(checks, st, expected, config, schedule, actor, trusted, forceReview);
      case RollBack(to, expected, actor) =>
        if 1 <= to <= |st.versions| {
          var v := st.versions[to - 1];
          UpdateOk(checks, st, expected, Some(v.config), Some(S.FromSeed(v.schedule)), actor, false, false);
        }
      case Review(c, reviewer, approve) => DecideOk(checks, st, c, reviewer, approve);
      case Activate => LiveOk(st, true);
      case Stop => LiveOk(st, false);
      case PauseEnds => LiveOk(st, true);
    }
  }

  lemma {:induction false} LiveOk(st: Store, on: bool)
    requires StoreOk(st)
    ensures StoreOk(st.(live := on))
  {
    hide Changed, S.ToJson, Stable;
    forall c | 0 <= c < |st.changes| ensures ChangeOk(st.(live := on), st.changes[c]) {
      assert ChangeOk(st, st.changes[c]);
    }
  }

  lemma {:induction false} RunKeepsStoreOk(checks: Checks, st: Store, es: seq<Event>)
    requires StoreOk(st) && S.MINUTE <= checks.floor
    ensures StoreOk(Run(checks, st, es))
  {
    hide StoreOk, Step;
    if es != [] {
      RunKeepsStoreOk(checks, st, es[..|es| - 1]);
      StepKeepsStoreOk(checks, Run(checks, st, es[..|es| - 1]), es[|es| - 1]);
    }
  }

  /** History is append-only, and the version in force only moves forward. */
  ghost predicate Follows(st: Store, st': Store) {
    && st.version <= st'.version && |st.versions| <= |st'.versions|
    && (st'.version == st.version ==> st'.config == st.config && st'.schedule == st.schedule)
    && (forall i :: 0 <= i < |st.versions| ==>
          && st'.versions[i].config == st.versions[i].config && st'.versions[i].schedule == st.versions[i].schedule
          && st'.versions[i].diff == st.versions[i].diff && st'.versions[i].changedBy == st.versions[i].changedBy)
    && |st.changes| <= |st'.changes| && (forall c :: 0 <= c < |st.changes| ==> st'.changes[c].base == st.changes[c].base)
  }

  lemma {:induction false} UpdateFollows(checks: Checks, st: Store, expected: nat, config: Option<Json>, schedule: Option<S.Schedule>,
                                         actor: Actor, trusted: bool, forceReview: bool)
    requires StoreOk(st)
    ensures var r := Update(checks, st, expected, config, schedule, actor, trusted, forceReview);
            r.Ok? ==> Follows(st, r.value.store) && (st.version < r.value.store.version <==> r.value.applied && r.value.changed != [])
  {
    hide ChangeOk, Changed, S.ToJson, S.FromSeed, Stable, AnySensitive, ScheduleValid;
  }

  lemma {:induction false} DecideFollows(checks: Checks, st: Store, c: nat, reviewer: Actor, approve: bool)
    requires StoreOk(st)
    ensures var r := Decide(checks, st, c, reviewer, approve);
            r.Ok? ==> Follows(st, r.value) && (st.version < r.value.version <==> approve)
  {
    hide StoreOk, S.FromSeed;
    if c < |st.changes| {
      ChangeFacts(st, c);
    }
  }

  lemma {:induction false} StepFollows(checks: Checks, st: Store, e: Event)
    requires StoreOk(st)
    ensures Follows(st, Step(checks, st, e))
  {
    hide StoreOk, Update, Decide, S.FromSeed;
    match e {
      case Edit(expected, config, schedule, actor, trusted, forceReview) =>
        UpdateFollows(checks, st, expected, config, schedule, actor, trusted, forceReview);
      case RollBack(to, expected, actor) =>
        if 1 <= to <= |st.versions| {
          var v := st.versions[to - 1];
          UpdateFollows(checks, st, expected, Some(v.config), Some(S.FromSeed(v.schedule)), actor, false, false);
        }
      case Review(c, reviewer, approve) => DecideFollows(checks, st, c, reviewer, approve);
      case _ =>
    }
  }

  lemma {:induction false} RunFollows(checks: Checks, st: Store, es: seq<Event>)
    requires StoreOk(st) && S.MINUTE <= checks.floor
    ensures Follows(st, Run(checks, st, es))
  {
    hide StoreOk, Step;
    if es != [] {
      var before := Run(checks, st, es[..|es| - 1]);
      RunFollows(checks, st, es[..|es| - 1]);
      RunKeepsStoreOk(checks, st, es[..|es| - 1]);
      StepFollows(checks, before, es[|es| - 1]);
      FollowsTransitive(st, before, Step(checks, before, es[|es| - 1]));
    }
  }

  lemma {:induction false} FollowsTransitive(a: Store, b: Store, c: Store)
    requires Follows(a, b) && Follows(b, c)
    ensures Follows(a, c)
  {
  }

  /** The active version is unique, mirrored by the source row, and never goes back, over any history. */
  lemma {:induction false} ActiveVersionIsUnique(checks: Checks, st: Store, es: seq<Event>, i: nat)
    requires StoreOk(st) && S.MINUTE <= checks.floor && i < |Run(checks, st, es).versions|
    ensures var st' := Run(checks, st, es);
            && st.version <= st'.version
            && (st'.versions[i].status == Active <==> i + 1 == st'.version)
            && (st'.versions[i].status == Active ==> st'.versions[i].config == st'.config && st'.versions[i].schedule == S.ToJson(st'.schedule))
  {
    hide Run, StoreOk, S.ToJson;
    RunKeepsStoreOk(checks, st, es);
    RunFollows(checks, st, es);
    MirrorAt(Run(checks, st, es), i);
  }

  lemma {:induction false} MirrorAt(st: Store, i: nat)
    requires StoreOk(st) && i < |st.versions|
    ensures st.versions[i].status == Active <==> i + 1 == st.version
    ensures st.versions[i].status == Active ==> st.versions[i].config == st.config && st.versions[i].schedule == S.ToJson(st.schedule)
  {
    hide ChangeOk, Stable, S.ToJson;
  }

  // ---------------------------------------------------------------------------------------------
  // Refusals
  // ---------------------------------------------------------------------------------------------

  /**
   When an edit is accepted, in the terms of the request: it was made against the version in force, the model reads it,
   the schedule keeps to the floor and its own limits, and a live source's hosts are allowed unless nothing changes.
   */
  lemma {:induction false} UpdateOkIff(checks: Checks, st: Store, expected: nat, config: Option<Json>, schedule: Option<S.Schedule>,
                                       actor: Actor, trusted: bool, forceReview: bool)
    ensures var r := Update(checks, st, expected, config, schedule, actor, trusted, forceReview);
            var model, s := checks.normalise(InputOf(st, config)), ScheduleOf(st, schedule);
            var valid := model.Some? && checks.floor <= s.minInterval && s.cadence.Some? && s.cadence.value != 0 && checks.floor <= s.cadence.value
                         && s.cadence.value <= s.hardMaxStaleness && s.warnStaleness <= s.hardMaxStaleness;
            && (r == Err(Conflict) <==> expected != st.version)
            && (r == Err(Invalid) <==> expected == st.version && !valid)
            && (r == Err(HostRefused) <==>
                  && expected == st.version && valid && st.live && !checks.hostsAllowed(model.value)
                  && (Normal(model.value) != Normal(st.config) || S.ToJson(s) != S.ToJson(st.schedule)))
            && (r.Err? ==> r.error in {Conflict, Invalid, HostRefused})
  {
    var model := checks.normalise(InputOf(st, config));
    if model.Some? {
      UnchangedIsSame(st.config, S.ToJson(st.schedule), model.value, S.ToJson(ScheduleOf(st, schedule)));
    }
    hide Changed, S.ToJson, Normal, AnySensitive, Written;
  }

  /** When a source can be created: as with an edit, and live at once only from a seed and with allowed hosts. */
  lemma {:induction false} CreatedOkIff(checks: Checks, config: Json, s: S.Schedule, actor: Actor, live: bool, seed: bool)
    ensures var r, model := Created(checks, config, s, actor, live, seed), checks.normalise(config);
            && (r.Ok? <==>
                  && model.Some? && checks.floor <= s.minInterval && s.cadence.Some? && s.cadence.value != 0 && checks.floor <= s.cadence.value
                  && s.cadence.value <= s.hardMaxStaleness && s.warnStaleness <= s.hardMaxStaleness
                  && (live ==> seed && checks.hostsAllowed(model.value)))
            && (r.Ok? ==> r.value.config == model.value && r.value.schedule == s && r.value.version == 1 == |r.value.versions| && r.value.live == live)
  {
  }

  /** When a decision is accepted: by somebody else, on a proposal still waiting and, to approve, still up to date. */
  lemma {:induction false} DecideOkIff(checks: Checks, st: Store, c: nat, reviewer: Actor, approve: bool)
    requires StoreOk(st) && c < |st.changes|
    ensures var r, ch := Decide(checks, st, c, reviewer, approve), st.changes[c];
            && 1 <= ch.version <= |st.versions|
            && (r.Ok? <==>
                  && ch.status == Awaiting && ch.proposedBy != reviewer
                  && (approve ==> st.version == ch.base && checks.hostsAllowed(st.versions[ch.version - 1].config)))
            && (r.Ok? ==>
                  && r.value.live == st.live
                  && r.value.changes == st.changes[c := ch.(status := if approve then Applied else Declined, reviewedBy := Some(reviewer))])
            && (r.Ok? && !approve ==>
                  && r.value.config == st.config && r.value.schedule == st.schedule && r.value.version == st.version
                  && r.value.versions == st.versions[ch.version - 1 := st.versions[ch.version - 1].(status := Rejected)])
  {
    ChangeFacts(st, c);
    hide StoreOk, S.FromSeed;
  }

  // ---------------------------------------------------------------------------------------------
  // No lost updates
  // ---------------------------------------------------------------------------------------------

  /** The version a transaction was made against: what the editor saw, or what the proposal was diffed against. */
  function BasisOf(st: Store, e: Event): Option<nat> {
    match e
    case Edit(expected, _, _, _, _, _) => Some(expected)
    case RollBack(_, expected, _) => Some(expected)
    case Review(c, _, _) => if c < |st.changes| then Some(st.changes[c].base) else None
    case _ => None
  }

  /** Whatever goes in force was made against the version in force just before, and so does a proposal. */
  lemma {:induction false} OnlyCurrentGoesIn(checks: Checks, st: Store, e: Event)
    requires StoreOk(st)
    ensures var st' := Step(checks, st, e);
            && (st'.version != st.version || st'.config != st.config || st'.schedule != st.schedule ==>
                  BasisOf(st, e) == Some(st.version) && st.version < st'.version)
            && (|st'.changes| > |st.changes| ==>
                  |st'.changes| == |st.changes| + 1 && Some(st'.changes[|st.changes|].base) == BasisOf(st, e) == Some(st.version))
  {
    hide StoreOk, Update, Decide, S.FromSeed;
    match e {
      case Edit(expected, config, schedule, actor, trusted, forceReview) =>
        UpdateBasis(checks, st, expected, config, schedule, actor, trusted, forceReview);
      case RollBack(to, expected, actor) =>
        if 1 <= to <= |st.versions| {
          var v := st.versions[to - 1];
          UpdateBasis(checks, st, expected, Some(v.config), Some(S.FromSeed(v.schedule)), actor, false, false);
        }
      case Review(c, reviewer, approve) =>
        if c < |st.changes| {
          DecideOkIff(checks, st, c, reviewer, approve);
          DecideFollows(checks, st, c, reviewer, approve);
        } else {
          UnknownIsRefused(checks, st, c, reviewer, approve);
        }
      case _ =>
    }
  }

  lemma {:induction false} UnknownIsRefused(checks: Checks, st: Store, c: nat, reviewer: Actor, approve: bool)
    requires |st.changes| <= c
    ensures Decide(checks, st, c, reviewer, approve).Err?
  {
  }

  lemma {:induction false} UpdateBasis(checks: Checks, st: Store, expected: nat, config: Option<Json>, schedule: Option<S.Schedule>,
                                       actor: Actor, trusted: bool, forceReview: bool)
    requires StoreOk(st)
    ensures var r := Update(checks, st, expected, config, schedule, actor, trusted, forceReview);
            r.Ok? ==>
              && expected == st.version <= r.value.store.version
              && (r.value.store.version == st.version ==> r.value.store.config == st.config && r.value.store.schedule == st.schedule)
              && (r.value.store.changes == st.changes
                  || (|r.value.store.changes| == |st.changes| + 1 && r.value.store.changes[|st.changes|].base == st.version))
  {
    UpdateFollows(checks, st, expected, config, schedule, actor, trusted, forceReview);
    hide StoreOk, Changed, S.ToJson, S.FromSeed, AnySensitive, ScheduleValid;
  }

  /** The transaction at position `n` of the history changes what is in force. */
  predicate TakesForce(checks: Checks, st: Store, es: seq<Event>, n: nat)
    requires n < |es|
  {
    Run(checks, st, es[..n + 1]).version != Run(checks, st, es[..n]).version
  }

  lemma {:induction false} VersionsGrow(checks: Checks, st: Store, es: seq<Event>, i: nat, j: nat)
    requires StoreOk(st) && S.MINUTE <= checks.floor && i <= j <= |es|
    ensures Run(checks, st, es[..i]).version <= Run(checks, st, es[..j]).version
    decreases j
  {
    hide StoreOk, Step, Run;
    if i < j {
      VersionsGrow(checks, st, es, i, j - 1);
      RunKeepsStoreOk(checks, st, es[..j - 1]);
      StepFollows(checks, Run(checks, st, es[..j - 1]), es[j - 1]);
      RunStep(checks, st, es, j - 1);
    }
  }

  lemma {:induction false} RunStep(checks: Checks, st: Store, es: seq<Event>, n: nat)
    requires n < |es|
    ensures Run(checks, st, es[..n + 1]) == Step(checks, Run(checks, st, es[..n]), es[n])
  {
    assert es[..n + 1][..n] == es[..n];
    hide Step;
  }

  /**
   No update is lost: in every history, of all edits, rollbacks and approvals made against one version at most one
   goes in force, and whatever goes in force replaces exactly the version it was made against.
   */
  lemma {:induction false} NoLostUpdate(checks: Checks, st: Store, es: seq<Event>, i: nat, j: nat)
    requires StoreOk(st) && S.MINUTE <= checks.floor && i < j < |es| && TakesForce(checks, st, es, i) && TakesForce(checks, st, es, j)
    ensures BasisOf(Run(checks, st, es[..i]), es[i]) == Some(Run(checks, st, es[..i]).version)
    ensures BasisOf(Run(checks, st, es[..j]), es[j]) == Some(Run(checks, st, es[..j]).version)
    ensures Run(checks, st, es[..i]).version < Run(checks, st, es[..j]).version
  {
    hide StoreOk, Step, Run, BasisOf;
    RunKeepsStoreOk(checks, st, es[..i]);
    RunKeepsStoreOk(checks, st, es[..j]);
    RunStep(checks, st, es, i);
    RunStep(checks, st, es, j);
    OnlyCurrentGoesIn(checks, Run(checks, st, es[..i]), es[i]);
    OnlyCurrentGoesIn(checks, Run(checks, st, es[..j]), es[j]);
    VersionsGrow(checks, st, es, i + 1, j);
  }

  // ---------------------------------------------------------------------------------------------
  // Hosts of a live source
  // ---------------------------------------------------------------------------------------------

  /** A live source only has hosts the allow-list admits. */
  predicate HostsOk(checks: Checks, st: Store) { st.live ==> checks.hostsAllowed(st.config) }

  /** Exactly one transaction can break that: the end of a pause during which other hosts were configured. */
  lemma {:induction false} HostsStayOkIff(checks: Checks, st: Store, e: Event)
    requires StoreOk(st) && HostsOk(checks, st)
    ensures HostsOk(checks, Step(checks, st, e)) <==> !e.PauseEnds? || checks.hostsAllowed(st.config)
  {
    hide StoreOk, Changed, S.ToJson, S.FromSeed, AnySensitive, ScheduleValid;
  }

  /** While no pause ends, a refused host stays out of a live source, over any history. */
  lemma {:induction false} RefusedHostStaysOut(checks: Checks, st: Store, es: seq<Event>)
    requires StoreOk(st) && S.MINUTE <= checks.floor && HostsOk(checks, st)
    requires forall n :: 0 <= n < |es| && es[n] == PauseEnds ==> checks.hostsAllowed(Run(checks, st, es[..n]).config)
    ensures HostsOk(checks, Run(checks, st, es))
  {
    hide StoreOk, Step;
    if es != [] {
      var n := |es| - 1;
      forall k | 0 <= k < n && es[..n][k] == PauseEnds ensures checks.hostsAllowed(Run(checks, st, es[..n][..k]).config) {
        assert es[..n][..k] == es[..k] && es[k] == PauseEnds;
      }
      RefusedHostStaysOut(checks, st, es[..n]);
      RunKeepsStoreOk(checks, st, es[..n]);
      HostsStayOkIff(checks, Run(checks, st, es[..n]), es[n]);
    }
  }

  /**
   The input that breaks it: while the source is paused an optional object is added as a whole, with a host the
   allow-list refuses, and then the pause ends.
   */
  lemma {:induction false} PauseEndsUnchecked(checks: Checks, st: Store, config: Json, key: string, e: map<string, Json>, actor: Actor)
    requires StoreOk(st) && !st.live && st.config.Node? && Get(st.config, key) == Null && !IsSensitive(key) && ProperEdit(checks, st, Some(config), None)
    requires var new' := Node(st.config.entries[key := Node(e)]); checks.normalise(config) == Some(new') && !checks.hostsAllowed(new')
    ensures var es := [Edit(st.version, Some(config), None, actor, false, false), PauseEnds];
            HostsOk(checks, st) && Run(checks, st, es).live && !HostsOk(checks, Run(checks, st, es))
  {
    hide *;
    var edit := Edit(st.version, Some(config), None, actor, false, false);
    NewObjectNeedsNoReview(checks, st, config, key, e, actor);
    ThenThePauseEnds(checks, st, edit);
    StoppedIsOk(checks, st);
  }

  lemma {:induction false} ThenThePauseEnds(checks: Checks, st: Store, e: Event)
    ensures var st' := Run(checks, st, [e, PauseEnds]);
            st' == Step(checks, st, e).(live := true) && (HostsOk(checks, st') <==> checks.hostsAllowed(Step(checks, st, e).config))
  {
    assert [e, PauseEnds][..1] == [e] && [e][..0] == [];
    assert Run(checks, st, [e]) == Step(checks, Run(checks, st, []), e);
    assert Step(checks, Step(checks, st, e), PauseEnds) == Step(checks, st, e).(live := true);
    hide Step;
  }

  lemma {:induction false} StoppedIsOk(checks: Checks, st: Store)
    requires !st.live
    ensures HostsOk(checks, st)
  {
  }

  // ---------------------------------------------------------------------------------------------
  // Maker and checker
  // ---------------------------------------------------------------------------------------------

  /** An approval applies exactly the difference that was reviewed, to exactly the configuration it was made against. */
  lemma {:induction false} ApprovedAsReviewed(checks: Checks, st: Store, c: nat, reviewer: Actor)
    requires StoreOk(st) && Decide(checks, st, c, reviewer, true).Ok?
    ensures c < |st.changes| && 1 <= st.changes[c].version <= |st.versions|
    ensures var st', ch := Decide(checks, st, c, reviewer, true).value, st.changes[c];
            var v := st.versions[ch.version - 1];
            && ch.base == st.version < ch.version == st'.version
            && st'.config == v.config && S.ToJson(st'.schedule) == v.schedule
            && v.diff == Changed(st.config, S.ToJson(st.schedule), st'.config, S.ToJson(st'.schedule))
            && reviewer != ch.proposedBy && v.changedBy == ch.proposedBy
  {
    var ch := st.changes[c];
    assert ChangeOk(st, ch);
    assert Stable(st.versions[ch.version - 1].schedule);
    hide Changed, S.ToJson, S.FromSeed;
  }

  /** A proposal made against an older configuration can never be approved, now or after anything else happens. */
  lemma {:induction false} OutdatedNeverApplies(checks: Checks, st: Store, es: seq<Event>, c: nat, reviewer: Actor)
    requires StoreOk(st) && S.MINUTE <= checks.floor && c < |st.changes| && st.changes[c].base < st.version
    ensures Decide(checks, Run(checks, st, es), c, reviewer, true).Err?
  {
    hide StoreOk;
    RunFollows(checks, st, es);
  }

  /** Another admin approves it, or the update comes from the deployment itself. */
  predicate ReviewedOrTrusted(st: Store, e: Event) {
    || (e.Edit? && e.trusted)
    || (e.Review? && e.approve && e.change < |st.changes| && st.changes[e.change].proposedBy != e.reviewer)
  }

  lemma {:induction false} FlaggedNeedsReview(checks: Checks, st: Store, e: Event)
    requires StoreOk(st)
    requires AnySensitive(Changed(st.config, S.ToJson(st.schedule), Step(checks, st, e).config, S.ToJson(Step(checks, st, e).schedule)))
    ensures ReviewedOrTrusted(st, e)
  {
    hide StoreOk, Changed, S.ToJson, S.FromSeed, ScheduleValid, IsSensitive;
    NothingChanged(st.config, S.ToJson(st.schedule));
    if e.Edit? {
      UntrustedIsPlain(checks, st, e.expected, e.config, e.schedule, e.actor, e.trusted, e.forceReview);
    } else if e.RollBack? && 1 <= e.to <= |st.versions| {
      var v := st.versions[e.to - 1];
      UntrustedIsPlain(checks, st, e.expected, Some(v.config), Some(S.FromSeed(v.schedule)), e.actor, false, false);
    }
  }

  /**
   A step that changes a value below a sensitive key which both the old and the new configuration reach through
   objects is another person's approval, or a trusted update.
   */
  lemma {:induction false} SensitiveNeedsReview(checks: Checks, st: Store, e: Event)
    requires StoreOk(st) && SensitiveDiffers(st.config, Step(checks, st, e).config)
    ensures ReviewedOrTrusted(st, e)
  {
    var st' := Step(checks, st, e);
    FlaggedIff(st.config, st'.config);
    SensitiveAmongAll(st.config, S.ToJson(st.schedule), st'.config, S.ToJson(st'.schedule));
    hide StoreOk, Step, AnySensitive, SensitiveDiffers, Changed, S.ToJson;
    FlaggedNeedsReview(checks, st, e);
  }

  /** No path of the schedule is sensitive. */
  lemma {:induction false} SensitiveAmongAll(config: Json, seed: S.Seed, config': Json, seed': S.Seed)
    ensures AnySensitive(Changed(config, seed, config', seed')) <==> AnySensitive(DiffPaths(config, config', ""))
  {
    var paths, extra := DiffPaths(config, config', ""), SchedulePaths(seed, seed');
    hide DiffPaths, IsSensitive;
    SchedulePathsPlain(seed, seed');
    hide SchedulePaths;
    if AnySensitive(paths) {
      var i :| 0 <= i < |paths| && IsSensitive(paths[i]);
      assert (paths + extra)[i] == paths[i];
    }
    if AnySensitive(paths + extra) {
      var i :| 0 <= i < |paths + extra| && IsSensitive((paths + extra)[i]);
      assert i < |paths|;
      assert paths[i] == (paths + extra)[i];
    }
  }

  lemma {:induction false} SchedulePathsPlain(a: S.Seed, b: S.Seed)
    ensures forall i :: 0 <= i < |SchedulePaths(a, b)| ==> !IsSensitive(SchedulePaths(a, b)[i])
  {
    ScheduleKeyPlain("cadence_minutes");
    ScheduleKeyPlain("hard_max_staleness_hours");
    ScheduleKeyPlain("min_interval_minutes");
    ScheduleKeyPlain("warn_staleness_hours");
    hide IsSensitive, SchedulePath;
  }

  lemma {:induction false} ScheduleKeyPlain(k: string)
    requires '.' !in k && k !in SENSITIVE_KEYS
    ensures !IsSensitive(SchedulePath(k))
  {
    PlainSensitive(k);
    PlainSensitive("schedule");
    DottedSensitive("schedule", k);
    hide IsSensitive;
    assert "schedule" + "." == "schedule.";
  }

  /** What an edit is to put in force: what it names, else what is there. */
  function InputOf(st: Store, config: Option<Json>): Json { if config.Some? then config.value else st.config }

  function ScheduleOf(st: Store, schedule: Option<S.Schedule>): S.Schedule { if schedule.Some? then schedule.value else st.schedule }

  /** The edit is well-formed and would change something. */
  predicate ProperEdit(checks: Checks, st: Store, config: Option<Json>, schedule: Option<S.Schedule>) {
    var model := checks.normalise(InputOf(st, config));
    && model.Some? && ScheduleValid(ScheduleOf(st, schedule), checks.floor) && (st.live ==> checks.hostsAllowed(model.value))
    && (Normal(model.value) != Normal(st.config) || S.ToJson(ScheduleOf(st, schedule)) != S.ToJson(st.schedule))
  }

  /** The new version is in force, and nobody is asked. */
  predicate InForce(st: Store, st': Store, config: Json, schedule: S.Schedule) {
    && st'.version == |st.versions| + 1 && st'.config == config && st'.schedule == schedule && st'.changes == st.changes
  }

  /** What was in force stays in force, and one more change awaits another admin. */
  predicate Deferred(st: Store, st': Store) {
    && st'.version == st.version && st'.config == st.config && st'.schedule == st.schedule
    && |st'.changes| == |st.changes| + 1 && st'.changes[..|st.changes|] == st.changes && st'.changes[|st.changes|].status == Awaiting
  }

  lemma {:induction false} UpdateInForceIff(checks: Checks, st: Store, config: Option<Json>, schedule: Option<S.Schedule>, actor: Actor,
                                            trusted: bool, forceReview: bool)
    requires StoreOk(st) && ProperEdit(checks, st, config, schedule)
    ensures var r := Update(checks, st, st.version, config, schedule, actor, trusted, forceReview);
            var model := checks.normalise(InputOf(st, config)).value;
            && r.Ok?
            && (trusted || (!forceReview && !SensitiveDiffers(st.config, model)) ==>
                  InForce(st, r.value.store, model, ScheduleOf(st, schedule)))
            && (!trusted && (forceReview || SensitiveDiffers(st.config, model)) ==> Deferred(st, r.value.store))
  {
    var model := checks.normalise(InputOf(st, config)).value;
    var seed, seed' := S.ToJson(st.schedule), S.ToJson(ScheduleOf(st, schedule));
    FlaggedIff(st.config, model);
    SensitiveAmongAll(st.config, seed, model, seed');
    UnchangedIsSame(st.config, seed, model, seed');
    hide StoreOk, AnySensitive, SensitiveDiffers, Changed, S.ToJson, ScheduleValid, Normal;
  }

  /** Being deferred is not being in force. */
  lemma {:induction false} InForceOrDeferred(st: Store, st': Store, config: Json, schedule: S.Schedule)
    requires StoreOk(st) && Deferred(st, st')
    ensures !InForce(st, st', config, schedule)
  {
  }

  /**
   The exact condition for every proper edit: it goes in force at once exactly when it comes from the deployment, or
   nobody forces a review and no value below a sensitive key differs that both configurations reach through objects.
   Otherwise it is deferred to another admin. The schedule never matters.
   */
  lemma {:induction false} InForceAtOnceIff(checks: Checks, st: Store, config: Option<Json>, schedule: Option<S.Schedule>, actor: Actor,
                                            trusted: bool, forceReview: bool)
    requires StoreOk(st) && ProperEdit(checks, st, config, schedule)
    ensures var st' := Step(checks, st, Edit(st.version, config, schedule, actor, trusted, forceReview));
            var model := checks.normalise(InputOf(st, config)).value;
            && (InForce(st, st', model, ScheduleOf(st, schedule))
                <==> trusted || (!forceReview && !SensitiveDiffers(st.config, model)))
            && (Deferred(st, st') <==> !InForce(st, st', model, ScheduleOf(st, schedule)))
  {
    hide StoreOk, Update, ScheduleValid, Normal, SensitiveDiffers, InForce, Deferred;
    UpdateInForceIff(checks, st, config, schedule, actor, trusted, forceReview);
    var st' := Step(checks, st, Edit(st.version, config, schedule, actor, trusted, forceReview));
    if Deferred(st, st') {
      InForceOrDeferred(st, st', checks.normalise(InputOf(st, config)).value, ScheduleOf(st, schedule));
    }
  }

  /** The same for a rollback that changes something. */
  lemma {:induction false} RollBackInForceIff(checks: Checks, st: Store, to: nat, actor: Actor)
    requires StoreOk(st) && 1 <= to <= |st.versions|
    requires var v := st.versions[to - 1]; ProperEdit(checks, st, Some(v.config), Some(S.FromSeed(v.schedule)))
    ensures var v, st' := st.versions[to - 1], Step(checks, st, RollBack(to, st.version, actor));
            var model := checks.normalise(v.config).value;
            && (InForce(st, st', model, S.FromSeed(v.schedule)) <==> !SensitiveDiffers(st.config, model))
            && (Deferred(st, st') <==> SensitiveDiffers(st.config, model))
  {
    hide StoreOk, Update, ScheduleValid, Normal, SensitiveDiffers, InForce, Deferred, S.FromSeed;
    var v, st' := st.versions[to - 1], Step(checks, st, RollBack(to, st.version, actor));
    UpdateInForceIff(checks, st, Some(v.config), Some(S.FromSeed(v.schedule)), actor, false, false);
    if Deferred(st, st') {
      InForceOrDeferred(st, st', checks.normalise(v.config).value, S.FromSeed(v.schedule));
    }
  }

  /**
   What the condition leaves out: an optional object that was not configured is added as a whole. It goes in force on
   one admin's word, the sensitive values it brings included, as the report stops at the object's own key. The case in
   the code is `sanctions_map`.
   */
  lemma {:induction false} NewObjectNeedsNoReview(checks: Checks, st: Store, config: Json, key: string, e: map<string, Json>, actor: Actor)
    requires StoreOk(st) && st.config.Node? && Get(st.config, key) == Null && !IsSensitive(key) && ProperEdit(checks, st, Some(config), None)
    requires checks.normalise(config) == Some(Node(st.config.entries[key := Node(e)]))
    ensures var st' := Step(checks, st, Edit(st.version, Some(config), None, actor, false, false));
            && st'.config == Node(st.config.entries[key := Node(e)]) && st'.changes == st.changes
            && forall k :: k in e ==> At(st.config, [key, k]) == Null && At(st'.config, [key, k]) == e[k]
  {
    NewObjectIsNotFlagged(st.config, key, e);
    InForceAtOnceIff(checks, st, Some(config), None, actor, false, false);
    hide StoreOk, ProperEdit, Step, SensitiveDiffers, IsSensitive, Normal;
    forall k | k in e
      ensures At(st.config, [key, k]) == Null && At(Node(st.config.entries[key := Node(e)]), [key, k]) == e[k]
    {
      AtTwo(st.config, key, k);
      AtTwo(Node(st.config.entries[key := Node(e)]), key, k);
      hide At;
    }
  }

  lemma {:induction false} AtTwo(j: Json, a: string, b: string)
    requires j.Node?
    ensures At(j, [a, b]) == Get(Get(j, a), b)
  {
    var sub := Get(j, a);
    assert [b][1..] == [];
    assert At(sub, [b]) == Get(sub, b);
    assert [a, b][1..] == [b];
  }

  lemma {:induction false} UntrustedIsPlain(checks: Checks, st: Store, expected: nat, config: Option<Json>, schedule: Option<S.Schedule>,
                                            actor: Actor, trusted: bool, forceReview: bool)
    ensures var r := Update(checks, st, expected, config, schedule, actor, trusted, forceReview);
            r.Ok? && !trusted ==> !AnySensitive(Changed(st.config, S.ToJson(st.schedule), r.value.store.config, S.ToJson(r.value.store.schedule)))
  {
    hide Changed, S.ToJson, S.FromSeed, ScheduleValid, IsSensitive;
    NothingChanged(st.config, S.ToJson(st.schedule));
  }

  /** Nothing differs from itself. */
  lemma {:induction false} NothingChanged(config: Json, seed: S.Seed)
    ensures Changed(config, seed, config, seed) == []
  {
    NoDiffIffSame(config, config);
    DiffPathsAreRendered(config, config, "");
  }

  /**
   Rolling back restores the old version's content, as the current model reads it: at once, or as the proposal that
   awaits approval. A configuration the model leaves as it is comes back unchanged.
   */
  lemma {:induction false} RollbackRestores(checks: Checks, st: Store, to: nat, expected: nat, actor: Actor)
    requires StoreOk(st) && 1 <= to <= |st.versions| && Rollback(checks, st, to, expected, actor).Ok?
    ensures checks.normalise(st.versions[to - 1].config).Some?
    ensures var r := Rollback(checks, st, to, expected, actor).value;
            var v := st.versions[to - 1];
            var restored := checks.normalise(v.config).value;
            && (r.applied ==> Normal(r.store.config) == Normal(restored) && S.ToJson(r.store.schedule) == v.schedule)
            && (!r.applied ==> r.store.config == st.config && |r.store.versions| == |st.versions| + 1
                               && r.store.versions[|st.versions|].config == restored && r.store.versions[|st.versions|].schedule == v.schedule)
  {
    var v := st.versions[to - 1];
    assert Stable(v.schedule);
    if checks.normalise(v.config).Some? {
      UnchangedIsSame(st.config, S.ToJson(st.schedule), checks.normalise(v.config).value, v.schedule);
    }
    hide StoreOk, Changed, S.ToJson, S.FromSeed, ScheduleValid, AnySensitive, Normal;
  }

  /** No reported path means the same content: equal up to None-valued keys, and the same stored schedule. */
  lemma {:induction false} UnchangedIsSame(config: Json, seed: S.Seed, config': Json, seed': S.Seed)
    ensures Changed(config, seed, config', seed') == [] <==> Normal(config) == Normal(config') && seed == seed'
  {
    NoDiffIffSame(config, config');
    DiffPathsAreRendered(config, config', "");
  }

  /**
   An edit that differs only in what the stored form rounds away is reported as applied, but changes nothing:
   the comparison is made on the stored form.
   */
  lemma {:induction false} RoundedAwayIsDropped(checks: Checks, st: Store, schedule: S.Schedule, actor: Actor)
    requires StoreOk(st) && checks.normalise(st.config) == Some(st.config) && ScheduleValid(schedule, checks.floor)
    requires S.ToJson(schedule) == S.ToJson(st.schedule)
    ensures Update(checks, st, st.version, None, Some(schedule), actor, false, false) == Ok(Outcome(st, true, []))
  {
    NothingChanged(st.config, S.ToJson(st.schedule));
    hide StoreOk, Changed, S.ToJson;
  }

  /** An approved schedule takes effect exactly as it was proposed if and only if its minutes are whole. */
  lemma {:induction false} ApprovedScheduleExactIff(checks: Checks, st: Store, c: nat, reviewer: Actor, proposed: S.Schedule)
    requires StoreOk(st) && Decide(checks, st, c, reviewer, true).Ok? && c < |st.changes| && 1 <= st.changes[c].version <= |st.versions|
    requires st.versions[st.changes[c].version - 1].schedule == S.ToJson(proposed) && proposed.cadence.Some? && proposed.cadence.value != 0
    ensures Decide(checks, st, c, reviewer, true).value.schedule == proposed
       <==> proposed.minInterval % S.MINUTE == 0 && proposed.cadence.value % S.MINUTE == 0
  {
    S.RoundTripIff(proposed);
    hide StoreOk, S.ToJson, S.FromSeed;
  }
}
