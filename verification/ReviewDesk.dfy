/** A reviewer's decision as it runs, over the tables and the queue. */
module ReviewDesk {
  import opened Base
  import opened Canonical
  import opened ListStore
  import opened RunQueue
  import opened Pipeline
  import opened PublishTables
  import opened RunTable

  datatype DecideError = NoSuchProposal | AlreadyDecided | RoleRequired | OwnProposal | SourceBusy(run: nat)

  /**
   One decision. It is refused without a trace, or it does exactly what the state machine's `Decide` does to the
   source whose tables these are.
   */
  method Decide(t: Tables, q: Queue, ghost m: Machine, source: SourceId, p: nat, reviewer: Actor, role: Role, approve: bool,
                resolution: Option<Resolution>, batch: nat, now: int)
    returns (r: Result<ProposalStatus, DecideError>)
    requires StoreOk(t.Contents()) && m.store == t.Contents() && m.runs == q.runs && m.source == source
    modifies t, q
    ensures p < |m.store.proposals| ==>
              && t.Contents() == DoDecide(m, p, reviewer, role, approve, resolution, batch, now).store
              && q.runs == DoDecide(m, p, reviewer, role, approve, resolution, batch, now).runs
    ensures r.Err? ==> t.Contents() == m.store && q.runs == m.runs
    ensures r.Ok? <==>
              && p < |m.store.proposals| && role in {Reviewer, Admin}
              && m.store.proposals[p].status == Awaiting && m.store.proposals[p].proposedBy != reviewer
              && !(approve && m.store.proposals[p].subject.LargeChangeRelease?
                   && exists i :: 0 <= i < |m.runs| && m.runs[i].source == source && m.runs[i].status in {Queued, Running})
    ensures r.Ok? ==> r.value == if approve then Applied else Declined
  {
    hide StoreOk;
    if p >= |t.proposals| {
      return Err(NoSuchProposal);
    }
    var prop := t.proposals[p];
    if prop.status != Awaiting {
      return Err(AlreadyDecided);
    }
    if role !in {Reviewer, Admin} {
      return Err(RoleRequired);
    }
    if prop.proposedBy == reviewer {
      return Err(OwnProposal);
    }
    if !approve {
      t.proposals := t.proposals[p := prop.(status := Declined, reviewedBy := Some(reviewer))];
      return Ok(Declined);
    }
    match prop.subject {
      case LargeChangeRelease(v) =>
        var id := q.EnqueueRun(NewRun(source, ReleaseHeld(v), Options(false, false, None), reviewer, batch, now, now));
        if id.Err? {
          return Err(SourceBusy(id.error));
        }
      case RemovalConfirmation(c, recommended) =>
        t.ResolveRemoval(c, if resolution.Some? then resolution.value else recommended, reviewer);
    }
    t.proposals := t.proposals[p := t.proposals[p].(status := Applied, reviewedBy := Some(reviewer))];
    r := Ok(Applied);
  }
}
