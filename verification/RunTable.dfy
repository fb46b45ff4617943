/** The run queue as it runs: one table of runs, claimed, beaten, cancelled, finished and reclaimed in place. */
module RunTable {
  import opened Base
  import opened Canonical
  import opened RunQueue

  /** The claim order: source priority, then time queued. */
  predicate NotAfter(p: int, t: int, q: int, u: int) { p < q || (p == q && t <= u) }

  predicate Resumable(r: Run, active: SourceId -> bool) { r.attempt <= MAX_RESUMES && active(r.source) }

  class Queue {
    var runs: seq<Run>

    constructor ()
      ensures runs == [] && QueueOk(runs)
    {
      runs := [];
    }

    method ActiveRun(source: SourceId) returns (id: Option<nat>)
      ensures id.Some? <==> Busy(runs, source)
      ensures id.Some? ==> id.value < |runs| && ActiveFor(runs[id.value], source)
    {
      for i := 0 to |runs|
        invariant forall k :: 0 <= k < i ==> !ActiveFor(runs[k], source)
      {
        if ActiveFor(runs[i], source) {
          return Some(i);
        }
      }
      id := None;
    }

    /** Queue a run, or name the active one that is in its way. */
    method EnqueueRun(r: Run) returns (id: Result<nat, nat>)
      modifies this
      ensures runs == Enqueue(old(runs), r)
      ensures id.Ok? <==> forall i :: 0 <= i < |old(runs)| && old(runs)[i].source == r.source ==> old(runs)[i].status !in {Queued, Running}
      ensures id.Ok? ==> id.value == |old(runs)| && runs == old(runs) + [r]
      ensures id.Err? ==> runs == old(runs) && id.error < |runs| && runs[id.error].source == r.source && runs[id.error].status in {Queued, Running}
    {
      var existing := ActiveRun(r.source);
      if existing.Some? {
        return Err(existing.value);
      }
      id := Ok(|runs|);
      runs := runs + [r];
    }

    /** Hand the first due run, by priority and age, to the worker. */
    method ClaimNext(priority: SourceId -> int, worker: Actor, now: int, lease: nat) returns (id: Option<nat>)
      requires QueueOk(runs)
      modifies this
      ensures QueueOk(runs)
      ensures id.None? <==> forall i :: 0 <= i < |old(runs)| && old(runs)[i].status == Queued ==> now < old(runs)[i].notBefore
      ensures id.None? ==> runs == old(runs)
      ensures id.Some? ==>
                && id.value < |old(runs)|
                && var r := old(runs)[id.value];
                && r.status == Queued && r.notBefore <= now
                && runs == old(runs)[id.value := r.(status := Running, leaseOwner := Some(worker), leaseExpires := now + lease, claims := r.claims + 1)]
                && forall i :: 0 <= i < |old(runs)| && old(runs)[i].status == Queued && old(runs)[i].notBefore <= now ==>
                     var p, q := priority(r.source), priority(old(runs)[i].source);
                     p <= q && (p == q ==> r.queuedAt <= old(runs)[i].queuedAt)
    {
      id := None;
      for i := 0 to |runs|
        invariant id.None? ==> forall k :: 0 <= k < i ==> !Claimable(runs[k], now)
        invariant id.Some? ==> id.value < i && Claimable(runs[id.value], now)
        invariant id.Some? ==> forall k :: 0 <= k < i && Claimable(runs[k], now) ==>
                    NotAfter(priority(runs[id.value].source), runs[id.value].queuedAt, priority(runs[k].source), runs[k].queuedAt)
      {
        if Claimable(runs[i], now)
           && (id.None? || !NotAfter(priority(runs[id.value].source), runs[id.value].queuedAt, priority(runs[i].source), runs[i].queuedAt)) {
          id := Some(i);
        }
      }
      if id.Some? {
        ClaimKeepsQueueOk(runs, id.value, worker, now, lease);
        runs := runs[id.value := ClaimRun(runs[id.value], worker, now, lease)];
      }
    }

    /** Extend the lease of a run this worker still holds; tell it whether to stop. */
    method Heartbeat(r: nat, worker: Actor, now: int, lease: nat) returns (cancel: bool)
      requires QueueOk(runs) && r < |runs|
      modifies this
      ensures QueueOk(runs) && runs == old(runs)[r := BeatRun(old(runs)[r], worker, now, lease)]
      ensures var held := old(runs)[r].status == Running && old(runs)[r].leaseOwner == Some(worker);
              && (held ==> runs == old(runs)[r := old(runs)[r].(leaseExpires := now + lease)])
              && (!held ==> runs == old(runs))
              && (cancel <==> held && old(runs)[r].cancelRequested)
    {
      assert RunOk(runs, r);
      UpdateKeepsQueueOk(runs, r, BeatRun(runs[r], worker, now, lease));
      cancel := false;
      if runs[r].status == Running && runs[r].leaseOwner == Some(worker) {
        cancel := runs[r].cancelRequested;
        runs := runs[r := runs[r].(leaseExpires := now + lease)];
      }
    }

    /** A queued run is cancelled at once, a running one is asked to stop, a finished one is left alone. */
    method RequestCancel(r: nat) returns (status: RunStatus)
      requires QueueOk(runs) && r < |runs|
      modifies this
      ensures QueueOk(runs) && runs == old(runs)[r := CancelRun(old(runs)[r])]
      ensures status == runs[r].status
      ensures old(runs)[r].status == Queued ==> status == Cancelled
      ensures old(runs)[r].status != Queued ==> status == old(runs)[r].status
      ensures old(runs)[r].status in {Queued, Running} ==> runs[r] == old(runs)[r].(status := status, cancelRequested := true)
      ensures old(runs)[r].status !in {Queued, Running} ==> runs == old(runs)
    {
      assert RunOk(runs, r);
      UpdateKeepsQueueOk(runs, r, CancelRun(runs[r]));
      if runs[r].status == Queued {
        runs := runs[r := runs[r].(status := Cancelled, cancelRequested := true)];
      } else if runs[r].status == Running {
        runs := runs[r := runs[r].(cancelRequested := true)];
      }
      status := runs[r].status;
    }

    /**
     Overwrite the run's status, whatever it was. A running or queued run frees its source; only an abandoned run that
     was already resumed must not be closed again.
     */
    method Finish(r: nat, status: RunStatus)
      requires QueueOk(runs) && r < |runs| && !Active(status)
      modifies this
      ensures runs == old(runs)[r := old(runs)[r].(status := status, leaseOwner := None)]
      ensures QueueOk(runs) <==>
                old(runs)[r].status == Abandoned ==>
                  status == Abandoned || forall i :: 0 <= i < |old(runs)| ==> old(runs)[i].resumedFrom != Some(r)
      ensures Active(old(runs)[r].status) ==> !Busy(runs, old(runs)[r].source)
    {
      assert RunOk(runs, r);
      FinishKeepsQueueOkIff(runs, r, status);
      if Active(runs[r].status) {
        forall i | 0 <= i < |runs| && i != r ensures !ActiveFor(runs[i], runs[r].source) {
        }
      }
      runs := runs[r := runs[r].(status := status, leaseOwner := None)];
    }

    /** The recursive query over `resumed_from_run_id`. */
    method ChainCount(r: nat) returns (n: nat)
      requires QueueOk(runs) && r < |runs|
      ensures n == ChainLength(runs, r)
    {
      var at: nat := r;
      n := 1;
      while runs[at].resumedFrom.Some?
        invariant at < |runs| && n - 1 + ChainLength(runs, at) == ChainLength(runs, r)
        decreases at
      {
        assert RunOk(runs, at);
        at := runs[at].resumedFrom.value;
        n := n + 1;
      }
    }

    /** Every run whose lease expired becomes ABANDONED. */
    method MarkAbandoned(now: int) returns (ids: seq<nat>)
      requires QueueOk(runs)
      modifies this
      ensures QueueOk(runs) && |runs| == |old(runs)|
      ensures forall i :: 0 <= i < |runs| ==>
                runs[i] == if LeaseExpired(old(runs)[i], now) then old(runs)[i].(status := Abandoned) else old(runs)[i]
      ensures forall q :: 0 <= q < |ids| ==> ids[q] < |runs| && LeaseExpired(old(runs)[ids[q]], now)
      ensures forall q, p :: 0 <= q < p < |ids| ==> ids[q] < ids[p]
      ensures forall i :: 0 <= i < |runs| && LeaseExpired(old(runs)[i], now) ==> i in ids
    {
      ids := [];
      for i := 0 to |runs|
        invariant QueueOk(runs) && |runs| == |old(runs)|
        invariant forall k :: 0 <= k < i ==>
                    runs[k] == if LeaseExpired(old(runs)[k], now) then old(runs)[k].(status := Abandoned) else old(runs)[k]
        invariant forall k :: i <= k < |runs| ==> runs[k] == old(runs)[k]
        invariant forall q :: 0 <= q < |ids| ==> ids[q] < i && LeaseExpired(old(runs)[ids[q]], now)
        invariant forall q, p :: 0 <= q < p < |ids| ==> ids[q] < ids[p]
        invariant forall k :: 0 <= k < i && LeaseExpired(old(runs)[k], now) ==> k in ids
      {
        if LeaseExpired(runs[i], now) {
          assert RunOk(runs, i);
          UpdateKeepsQueueOk(runs, i, runs[i].(status := Abandoned));
          hide QueueOk;
          runs := runs[i := runs[i].(status := Abandoned)];
          ids := ids + [i];
        }
      }
    }

    /** Queue the resumption of an abandoned run, while its chain is short enough and its source active. */
    method Resume(r: nat, active: SourceId -> bool, now: int)
      requires QueueOk(runs) && r < |runs| && runs[r].status == Abandoned && !Busy(runs, runs[r].source)
      requires forall i :: 0 <= i < |runs| ==> runs[i].resumedFrom != Some(r)
      modifies this
      ensures QueueOk(runs)
      ensures runs == if Resumable(old(runs)[r], active) then old(runs) + [ResumeOf(old(runs)[r], r, now)] else old(runs)
    {
      AttemptIsChainLength(runs, r);
      var chain := ChainCount(r);
      if chain <= MAX_RESUMES && active(runs[r].source) {
        var next := ResumeOf(runs[r], r, now);
        assert RunOk(runs, r);
        AppendKeepsQueueOk(runs, next);
        var id := EnqueueRun(next);
      }
    }

    /**
     Expired runs are abandoned; each is resumed in its place unless its chain is used up or its source is not
     active. Nothing else in the table changes.
     */
    method ReclaimAbandoned(active: SourceId -> bool, now: int)
      requires QueueOk(runs)
      modifies this
      ensures QueueOk(runs) && |old(runs)| <= |runs|
      ensures forall i :: 0 <= i < |old(runs)| ==>
                runs[i] == if LeaseExpired(old(runs)[i], now) then old(runs)[i].(status := Abandoned) else old(runs)[i]
      ensures forall k :: |old(runs)| <= k < |runs| ==> IsResumption(old(runs), active, now, runs[k])
      ensures forall r :: 0 <= r < |old(runs)| && LeaseExpired(old(runs)[r], now) && Resumable(old(runs)[r], active) ==>
                ResumeOf(old(runs)[r], r, now) in runs[|old(runs)|..]
      // a run under a live lease is left alone and not resumed, a run past its lease is not
      ensures forall i :: 0 <= i < |old(runs)| && (old(runs)[i].status == Running ==> now <= old(runs)[i].leaseExpires) ==>
                runs[i] == old(runs)[i] && forall k :: |old(runs)| <= k < |runs| ==> runs[k].resumedFrom != Some(i)
      ensures forall i :: 0 <= i < |old(runs)| && old(runs)[i].status == Running && old(runs)[i].leaseExpires < now ==>
                runs[i].status == Abandoned
                && (old(runs)[i].attempt <= 3 && active(old(runs)[i].source) <==> exists k :: |old(runs)| <= k < |runs| && runs[k].resumedFrom == Some(i))
      ensures forall k :: |old(runs)| <= k < |runs| ==> ContinuesAsNew(old(runs), runs[k], now)
    {
      ghost var before := runs;
      MarkAndResume(active, now);
      hide *;
      LeasesDecide(before, runs, active, now);
    }

    /** The two halves: mark every expired run, then queue the resumptions. */
    method MarkAndResume(active: SourceId -> bool, now: int)
      requires QueueOk(runs)
      modifies this
      ensures QueueOk(runs) && |old(runs)| <= |runs|
      ensures forall i :: 0 <= i < |old(runs)| ==>
                runs[i] == if LeaseExpired(old(runs)[i], now) then old(runs)[i].(status := Abandoned) else old(runs)[i]
      ensures forall k :: |old(runs)| <= k < |runs| ==> IsResumption(old(runs), active, now, runs[k])
      ensures forall r :: 0 <= r < |old(runs)| && LeaseExpired(old(runs)[r], now) && Resumable(old(runs)[r], active) ==>
                ResumeOf(old(runs)[r], r, now) in runs[|old(runs)|..]
    {
      ghost var before := runs;
      var ids := MarkAbandoned(now);
      ghost var marked := runs;
      hide QueueOk, ResumeOf, PartlyResumed, LeaseExpired, Resumable, IsResumption;
      NoneResumed(before, marked, ids, active, now);
      for q := 0 to |ids|
        invariant QueueOk(runs) && PartlyResumed(before, marked, runs, ids, q, active, now)
      {
        ghost var prior := runs;
        NextToResume(before, marked, runs, ids, q, active, now);
        Resume(ids[q], active, now);
        OneMoreResumed(before, marked, prior, runs, ids, q, active, now);
      }
      AllResumed(before, marked, runs, ids, active, now);
    }
  }

  /** The table was `before`, is `marked` without resumptions, and now has those of the first `q` expired runs. */
  ghost predicate PartlyResumed(before: seq<Run>, marked: seq<Run>, runs: seq<Run>, ids: seq<nat>, q: nat, active: SourceId -> bool, now: int) {
    && q <= |ids| && |marked| <= |runs| && runs[..|marked|] == marked && (forall p :: 0 <= p < |ids| ==> ids[p] < |before|)
    && (forall k :: |marked| <= k < |runs| ==> IsResumption(before, active, now, runs[k]))
    && (forall k :: |marked| <= k < |runs| ==> ContinuesOneOf(ids[..q], runs[k]))
    && (forall p :: 0 <= p < q && Resumable(before[ids[p]], active) ==> ResumeOf(before[ids[p]], ids[p], now) in runs[|marked|..])
  }

  /** `marked` is `before` with the runs of `ids`, the expired ones in order, abandoned. */
  ghost predicate Marked(before: seq<Run>, marked: seq<Run>, ids: seq<nat>, now: int) {
    && |marked| == |before|
    && (forall i :: 0 <= i < |before| ==>
          marked[i] == if LeaseExpired(before[i], now) then before[i].(status := Abandoned) else before[i])
    && (forall p :: 0 <= p < |ids| ==> ids[p] < |before| && LeaseExpired(before[ids[p]], now))
    && (forall p, p' :: 0 <= p < p' < |ids| ==> ids[p] < ids[p'])
    && (forall i :: 0 <= i < |before| && LeaseExpired(before[i], now) ==> i in ids)
  }

  lemma {:induction false} NoneResumed(before: seq<Run>, marked: seq<Run>, ids: seq<nat>, active: SourceId -> bool, now: int)
    requires Marked(before, marked, ids, now)
    ensures PartlyResumed(before, marked, marked, ids, 0, active, now)
  {
    assert marked[..|marked|] == marked;
  }

  lemma {:induction false} NextToResume(before: seq<Run>, marked: seq<Run>, runs: seq<Run>, ids: seq<nat>, q: nat, active: SourceId -> bool, now: int)
    requires QueueOk(before) && QueueOk(runs) && Marked(before, marked, ids, now) && q < |ids|
    requires PartlyResumed(before, marked, runs, ids, q, active, now)
    ensures ids[q] < |marked| <= |runs| && runs[ids[q]] == marked[ids[q]] && runs[ids[q]].status == Abandoned && !Busy(runs, runs[ids[q]].source)
    ensures forall i :: 0 <= i < |runs| ==> runs[i].resumedFrom != Some(ids[q])
  {
    assert runs[..|marked|][ids[q]] == marked[ids[q]];
    hide QueueOk, Busy, IsResumption, ContinuesOneOf;
    NothingActive(before, marked, runs, now, active, ids, q);
  }

  lemma {:induction false} OneMoreResumed(before: seq<Run>, marked: seq<Run>, prior: seq<Run>, runs: seq<Run>, ids: seq<nat>, q: nat,
                                          active: SourceId -> bool, now: int)
    requires Marked(before, marked, ids, now) && q < |ids| && PartlyResumed(before, marked, prior, ids, q, active, now)
    requires ids[q] < |prior| && prior[ids[q]] == before[ids[q]].(status := Abandoned)
    requires runs == if Resumable(prior[ids[q]], active) then prior + [ResumeOf(prior[ids[q]], ids[q], now)] else prior
    ensures PartlyResumed(before, marked, runs, ids, q + 1, active, now)
  {
    var r, n := ids[q], |marked|;
    ResumptionOf(before, active, now, r);
    var x := ResumeOf(before[r], r, now);
    OneMoreId(ids, q, prior, n);
    Grown(prior, runs, n, x);
    hide IsResumption, ContinuesOneOf, ResumeOf, Resumable, LeaseExpired;
    forall k | n <= k < |runs| ensures IsResumption(before, active, now, runs[k]) && ContinuesOneOf(ids[..q + 1], runs[k]) {
      if k < |prior| {
        assert runs[k] == prior[k];
      }
    }
  }

  lemma {:induction false} AllResumed(before: seq<Run>, marked: seq<Run>, runs: seq<Run>, ids: seq<nat>, active: SourceId -> bool, now: int)
    requires Marked(before, marked, ids, now) && PartlyResumed(before, marked, runs, ids, |ids|, active, now)
    ensures |before| <= |runs|
    ensures forall i :: 0 <= i < |before| ==>
              runs[i] == if LeaseExpired(before[i], now) then before[i].(status := Abandoned) else before[i]
    ensures forall k :: |before| <= k < |runs| ==> IsResumption(before, active, now, runs[k])
    ensures forall r :: 0 <= r < |before| && LeaseExpired(before[r], now) && Resumable(before[r], active) ==>
              ResumeOf(before[r], r, now) in runs[|before|..]
  {
    hide IsResumption, ContinuesOneOf, ResumeOf, Resumable, LeaseExpired;
    forall i | 0 <= i < |before| ensures runs[i] == marked[i] {
      assert runs[..|marked|][i] == marked[i];
    }
    forall r | 0 <= r < |before| && LeaseExpired(before[r], now) && Resumable(before[r], active)
      ensures ResumeOf(before[r], r, now) in runs[|before|..]
    {
      var p :| 0 <= p < |ids| && ids[p] == r;
    }
  }

  /** The row starts over, under the same terms, what it was resumed from: one attempt more, due now, in the reclaimer's name. */
  ghost predicate ContinuesAsNew(runs: seq<Run>, x: Run, now: int) {
    && x.resumedFrom.Some? && x.resumedFrom.value < |runs|
    && var r := runs[x.resumedFrom.value];
    && x.source == r.source && x.kind == r.kind && x.options == r.options && x.batch == r.batch && x.attempt == r.attempt + 1
    && x.status == Queued && x.notBefore == now && x.archived == None && x.requestedBy == Actor("system:reclaimer")
  }

  lemma {:induction false} LeasesDecide(before: seq<Run>, runs: seq<Run>, active: SourceId -> bool, now: int)
    requires |before| <= |runs|
    requires forall i :: 0 <= i < |before| ==>
               runs[i] == if LeaseExpired(before[i], now) then before[i].(status := Abandoned) else before[i]
    requires forall k :: |before| <= k < |runs| ==> IsResumption(before, active, now, runs[k])
    requires forall r :: 0 <= r < |before| && LeaseExpired(before[r], now) && Resumable(before[r], active) ==>
               ResumeOf(before[r], r, now) in runs[|before|..]
    ensures forall i :: 0 <= i < |before| && (before[i].status == Running ==> now <= before[i].leaseExpires) ==>
              runs[i] == before[i] && forall k :: |before| <= k < |runs| ==> runs[k].resumedFrom != Some(i)
    ensures forall i :: 0 <= i < |before| && before[i].status == Running && before[i].leaseExpires < now ==>
              runs[i].status == Abandoned
              && (before[i].attempt <= 3 && active(before[i].source) <==> exists k :: |before| <= k < |runs| && runs[k].resumedFrom == Some(i))
    ensures forall k :: |before| <= k < |runs| ==> ContinuesAsNew(before, runs[k], now)
  {
    forall k | |before| <= k < |runs|
      ensures runs[k].resumedFrom.Some? && runs[k].resumedFrom.value < |before| && ContinuesAsNew(before, runs[k], now)
      ensures var r := before[runs[k].resumedFrom.value]; r.status == Running && r.leaseExpires < now && r.attempt <= 3 && active(r.source)
    {
      assert IsResumption(before, active, now, runs[k]);
      var r :| 0 <= r < |before| && LeaseExpired(before[r], now) && Resumable(before[r], active) && runs[k] == ResumeOf(before[r], r, now);
    }
    forall i | 0 <= i < |before| && before[i].status == Running && before[i].leaseExpires < now && before[i].attempt <= 3 && active(before[i].source)
      ensures exists k :: |before| <= k < |runs| && runs[k].resumedFrom == Some(i)
    {
      var x := ResumeOf(before[i], i, now);
      assert x in runs[|before|..];
      var j :| 0 <= j < |runs| - |before| && runs[|before|..][j] == x;
      assert runs[|before| + j] == x;
    }
  }

  lemma {:induction false} Grown(prior: seq<Run>, runs: seq<Run>, n: nat, x: Run)
    requires n <= |prior| && (runs == prior || runs == prior + [x])
    ensures runs[..n] == prior[..n]
    ensures forall y :: y in prior[n..] ==> y in runs[n..]
    ensures runs == prior + [x] ==> x in runs[n..]
  {
    if runs == prior + [x] {
      assert runs[n..] == prior[n..] + [x];
    }
  }

  /** Marking a run abandoned does not change what its resumption looks like. */
  lemma {:induction false} ResumptionOf(before: seq<Run>, active: SourceId -> bool, now: int, r: nat)
    requires r < |before|
    ensures ResumeOf(before[r].(status := Abandoned), r, now) == ResumeOf(before[r], r, now)
    ensures Resumable(before[r].(status := Abandoned), active) <==> Resumable(before[r], active)
    ensures LeaseExpired(before[r], now) && Resumable(before[r], active) ==> IsResumption(before, active, now, ResumeOf(before[r], r, now))
    ensures ResumeOf(before[r], r, now).resumedFrom == Some(r)
  {
  }

  /** The row continues an expired run of the table under the same terms. */
  ghost predicate IsResumption(runs: seq<Run>, active: SourceId -> bool, now: int, x: Run) {
    exists r :: 0 <= r < |runs| && LeaseExpired(runs[r], now) && Resumable(runs[r], active) && x == ResumeOf(runs[r], r, now)
  }

  ghost predicate ContinuesOneOf(ids: seq<nat>, x: Run) {
    exists p :: 0 <= p < |ids| && x.resumedFrom == Some(ids[p])
  }

  lemma {:induction false} OneMoreId(ids: seq<nat>, q: nat, runs: seq<Run>, n: nat)
    requires q < |ids| && forall k :: n <= k < |runs| ==> ContinuesOneOf(ids[..q], runs[k])
    ensures forall k :: n <= k < |runs| ==> ContinuesOneOf(ids[..q + 1], runs[k])
    ensures forall x: Run :: x.resumedFrom == Some(ids[q]) ==> ContinuesOneOf(ids[..q + 1], x)
  {
    forall k | n <= k < |runs| ensures ContinuesOneOf(ids[..q + 1], runs[k]) {
      assert ContinuesOneOf(ids[..q], runs[k]);
      var p :| 0 <= p < |ids[..q]| && runs[k].resumedFrom == Some(ids[..q][p]);
      assert ids[..q + 1][p] == ids[..q][p];
    }
    assert ids[..q + 1][q] == ids[q];
  }

  /** The source of an expired run has no other active run, so its resumption is never refused. */
  lemma {:induction false} NothingActive(before: seq<Run>, marked: seq<Run>, runs: seq<Run>, now: int, active: SourceId -> bool, ids: seq<nat>, q: nat)
    requires QueueOk(before) && QueueOk(runs) && |marked| == |before| <= |runs| && runs[..|marked|] == marked && q < |ids|
    requires forall i :: 0 <= i < |before| ==>
               marked[i] == if LeaseExpired(before[i], now) then before[i].(status := Abandoned) else before[i]
    requires forall p :: 0 <= p < |ids| ==> ids[p] < |before| && LeaseExpired(before[ids[p]], now)
    requires forall p, p' :: 0 <= p < p' < |ids| ==> ids[p] < ids[p']
    requires forall k :: |marked| <= k < |runs| ==> IsResumption(before, active, now, runs[k])
    requires forall k :: |marked| <= k < |runs| ==> ContinuesOneOf(ids[..q], runs[k])
    ensures !Busy(runs, before[ids[q]].source)
    ensures forall i :: 0 <= i < |runs| ==> runs[i].resumedFrom != Some(ids[q])
  {
    var r := ids[q];
    assert OneActive(before);
    forall i | 0 <= i < |runs| ensures !ActiveFor(runs[i], before[r].source) && runs[i].resumedFrom != Some(r) {
      if i < |marked| {
        assert runs[i] == marked[i];
        assert RunOk(before, i);
      } else {
        assert IsResumption(before, active, now, runs[i]) && ContinuesOneOf(ids[..q], runs[i]);
        var o :| 0 <= o < |before| && LeaseExpired(before[o], now) && Resumable(before[o], active) && runs[i] == ResumeOf(before[o], o, now);
        var p :| 0 <= p < |ids[..q]| && runs[i].resumedFrom == Some(ids[..q][p]);
        assert o == ids[p] < r;
        assert Active(before[o].status) && Active(before[r].status);
      }
    }
  }

  lemma {:induction false} FinishKeepsQueueOkIff(runs: seq<Run>, r: nat, status: RunStatus)
    requires QueueOk(runs) && r < |runs| && !Active(status)
    ensures QueueOk(runs[r := FinishRun(runs[r], status)]) <==>
              runs[r].status == Abandoned ==> status == Abandoned || forall i :: 0 <= i < |runs| ==> runs[i].resumedFrom != Some(r)
  {
    var runs' := runs[r := FinishRun(runs[r], status)];
    assert RunOk(runs, r);
    if runs[r].status != Abandoned || status == Abandoned {
      UpdateKeepsQueueOk(runs, r, FinishRun(runs[r], status));
    } else {
      forall i | 0 <= i < |runs| ensures RunOk(runs', i) <==> runs[i].resumedFrom != Some(r) {
        assert RunOk(runs, i);
      }
    }
  }
}
