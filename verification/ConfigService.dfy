/** Source management as it runs: the configuration tables of one source, updated in place. */
module ConfigService {
  import opened Base
  import opened Canonical
  import opened ConfigTree
  import opened ConfigStore
  import S = Schedule

  class Service {
    var config: Json
    var schedule: S.Schedule
    var version: nat
    var live: bool
    var versions: seq<ConfigVersion>
    var changes: seq<Change>

    constructor (checks: Checks, start: Json, startSchedule: S.Schedule, actor: Actor, startLive: bool, seed: bool)
      requires Created(checks, start, startSchedule, actor, startLive, seed).Ok? && S.MINUTE <= checks.floor
      ensures Contents() == Created(checks, start, startSchedule, actor, startLive, seed).value && StoreOk(Contents())
    {
      config, schedule, version, live := checks.normalise(start).value, startSchedule, 1, startLive;
      versions := [ConfigVersion(checks.normalise(start).value, S.ToJson(startSchedule), [], actor, Active)];
      changes := [];
      new;
      CreatedOk(checks, start, startSchedule, actor, startLive, seed);
    }

    function Contents(): Store
      reads this
    {
      Store(config, schedule, version, live, versions, changes)
    }

    /** `_apply`: retire the active version, activate the given one, mirror it in the source row. */
    method Apply(n: nat, config': Json, schedule': S.Schedule)
      requires 1 <= n <= |versions|
      modifies this
      ensures Contents() == ConfigStore.Apply(old(Contents()), n, config', schedule')
    {
      for i := 0 to |versions|
        invariant Contents() == old(Contents()).(versions := versions) && |versions| == |old(versions)|
        invariant forall k :: 0 <= k < i ==>
                    versions[k] == if old(versions)[k].status == Active then old(versions)[k].(status := Superseded) else old(versions)[k]
        invariant forall k :: i <= k < |versions| ==> versions[k] == old(versions)[k]
      {
        if versions[i].status == Active {
          versions := versions[i := versions[i].(status := Superseded)];
        }
      }
      versions := versions[n - 1 := versions[n - 1].(status := Active)];
      config, schedule, version := config', schedule', n;
    }

    method SensitiveAmong(paths: seq<string>) returns (found: bool)
      ensures found <==> AnySensitive(paths)
    {
      found := false;
      for i := 0 to |paths|
        invariant found <==> exists k :: 0 <= k < i && IsSensitive(paths[k])
      {
        if IsSensitive(paths[i]) {
          found := true;
        }
      }
    }

    /** `update_source`: refused without a trace, applied, or written as a proposal for another admin. */
    method UpdateSource(checks: Checks, expected: nat, config': Option<Json>, schedule': Option<S.Schedule>, actor: Actor,
                        trusted: bool, forceReview: bool)
      returns (r: Result<bool, ConfigError>)
      requires StoreOk(Contents()) && S.MINUTE <= checks.floor
      modifies this
      ensures StoreOk(Contents())
      ensures match Update(checks, old(Contents()), expected, config', schedule', actor, trusted, forceReview)
              case Ok(outcome) => r == Ok(outcome.applied) && Contents() == outcome.store
              case Err(e) => r == Err(e) && Contents() == old(Contents())
      ensures expected != old(version) <==> r == Err(Conflict)
      ensures r.Ok? && version != old(version) && live ==> checks.hostsAllowed(config)
    {
      UpdateOkIff(checks, Contents(), expected, config', schedule', actor, trusted, forceReview);
      UpdateOk(checks, Contents(), expected, config', schedule', actor, trusted, forceReview);
      hide StoreOk, Changed, S.ToJson, ScheduleValid, AnySensitive, Written;
      if version != expected {
        return Err(Conflict);
      }
      var newSchedule := if schedule'.Some? then schedule'.value else schedule;
      var model := checks.normalise(if config'.Some? then config'.value else config);
      if model.None? || !ScheduleValid(newSchedule, checks.floor) {
        return Err(Invalid);
      }
      var changed := Changed(config, S.ToJson(schedule), model.value, S.ToJson(newSchedule));
      if changed == [] {
        return Ok(true);
      }
      if live && !checks.hostsAllowed(model.value) {
        return Err(HostRefused);
      }
      var sensitive := SensitiveAmong(changed);
      Write(model.value, newSchedule, changed, actor, (sensitive || forceReview) && !trusted);
      r := Ok(!((sensitive || forceReview) && !trusted));
    }

    /** Write the next version; propose it for review, or activate it in the same transaction. */
    method Write(config': Json, schedule': S.Schedule, changed: seq<string>, actor: Actor, review: bool)
      modifies this
      ensures Contents() == Written(old(Contents()), config', schedule', changed, actor, review).store
    {
      hide S.ToJson, ConfigStore.Apply;
      var next := |versions| + 1;
      versions := versions + [ConfigVersion(config', S.ToJson(schedule'), changed, actor, PendingApproval)];
      if review {
        changes := changes + [Change(next, version, actor, Awaiting, None)];
      } else {
        Apply(next, config', schedule');
      }
    }

    method RollBack(checks: Checks, to: nat, expected: nat, actor: Actor) returns (r: Result<bool, ConfigError>)
      requires StoreOk(Contents()) && S.MINUTE <= checks.floor
      modifies this
      ensures StoreOk(Contents())
      ensures match Rollback(checks, old(Contents()), to, expected, actor)
              case Ok(outcome) => r == Ok(outcome.applied) && Contents() == outcome.store
              case Err(e) => r == Err(e) && Contents() == old(Contents())
      ensures 1 <= to <= |old(versions)| && expected != old(version) <==> r == Err(Conflict)
    {
      hide StoreOk, Update;
      if to == 0 || |versions| < to {
        return Err(NoSuchVersion);
      }
      r := UpdateSource(checks, expected, Some(versions[to - 1].config), Some(S.FromSeed(versions[to - 1].schedule)), actor, false, false);
    }

    /** `decide_change`: decline, or apply exactly the version that was proposed if nothing changed since. */
    method DecideChange(checks: Checks, c: nat, reviewer: Actor, approve: bool) returns (r: Result<ChangeStatus, ConfigError>)
      requires StoreOk(Contents())
      modifies this
      ensures StoreOk(Contents())
      ensures match Decide(checks, old(Contents()), c, reviewer, approve)
              case Ok(st) => r == Ok(if approve then Applied else Declined) && Contents() == st
              case Err(e) => r == Err(e) && Contents() == old(Contents())
      ensures r.Ok? <==>
                && c < |old(changes)| && old(changes)[c].status == Awaiting && old(changes)[c].proposedBy != reviewer
                && (approve ==> old(changes)[c].base == old(version)
                                && checks.hostsAllowed(old(versions)[old(changes)[c].version - 1].config))
    {
      DecideOk(checks, Contents(), c, reviewer, approve);
      if c < |changes| {
        DecideOkIff(checks, Contents(), c, reviewer, approve);
      }
      hide StoreOk, ConfigStore.Apply, S.FromSeed;
      if c >= |changes| {
        return Err(NoSuchChange);
      }
      var ch := changes[c];
      if ch.status != Awaiting {
        return Err(AlreadyDecided);
      }
      if ch.proposedBy == reviewer {
        return Err(OwnChange);
      }
      if ch.version == 0 || |versions| < ch.version {
        return Err(NoSuchVersion);
      }
      var v := versions[ch.version - 1];
      if !approve {
        changes := changes[c := ch.(status := Declined, reviewedBy := Some(reviewer))];
        versions := versions[ch.version - 1 := v.(status := Rejected)];
        return Ok(Declined);
      }
      if version != ch.base {
        return Err(Conflict);
      }
      if !checks.hostsAllowed(v.config) {
        return Err(HostRefused);
      }
      Apply(ch.version, v.config, S.FromSeed(v.schedule));
      changes := changes[c := ch.(status := Applied, reviewedBy := Some(reviewer))];
      r := Ok(Applied);
    }
  }
}
