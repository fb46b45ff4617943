/**
 What a lease is worth, over every interleaving of queue transactions: a run under a live lease is never reclaimed,
 and one whose holder fell silent is reclaimed from the instant its lease has run out.
 */
module Leases {
  import opened Base
  import opened Canonical
  import opened RunQueue

  /** The transaction starts or renews the lease on run `r`: a claim of a due run, or a beat of the run's own holder. */
  predicate Leases(runs: seq<Run>, e: QueueEvent, r: nat) {
    && r < |runs|
    && match e
       case Take(q, _, now, _) => q == r && runs[r].status == Queued && runs[r].notBefore <= now
       case Beat(q, worker, _, _) => q == r && runs[r].status == Running && runs[r].leaseOwner == Some(worker)
       case _ => false
  }

  /** The instant until which such a transaction leases the run. */
  function Until(e: QueueEvent): int
    requires e.Take? || e.Beat?
  {
    e.now + e.lease
  }

  /** Only the holder renews a lease, and only a due run can be claimed. */
  lemma {:induction false} LeaseStarts(runs: seq<Run>, e: QueueEvent, r: nat)
    requires r < |runs| && (e.Take? || e.Beat?) && e.run == r
    ensures var runs' := QueueStep(runs, e);
            && (Leases(runs, e, r) ==>
                  |runs'| == |runs| && runs'[r].status == Running && runs'[r].leaseOwner == Some(e.worker) && runs'[r].leaseExpires == Until(e))
            && (!Leases(runs, e, r) ==> runs' == runs)
  {
  }

  /** No beat in the history cuts the lease of `r` short. */
  ghost predicate KeepsLease(es: seq<QueueEvent>, r: nat, until: int) {
    forall i :: 0 <= i < |es| && es[i].Beat? && es[i].run == r ==> until <= Until(es[i])
  }

  /** Until its lease runs out, the run is either still leased or was ended by its worker. */
  ghost predicate Protected(runs: seq<Run>, r: nat, until: int) {
    r < |runs| && runs[r].status != Queued && (runs[r].status == Running ==> until <= runs[r].leaseExpires)
  }

  lemma {:induction false} StaysProtected(runs: seq<Run>, e: QueueEvent, r: nat, until: int)
    requires Protected(runs, r, until) && (e.Beat? && e.run == r ==> until <= Until(e))
    ensures Protected(QueueStep(runs, e), r, until)
  {
  }

  lemma {:induction false} ProtectedThrough(runs: seq<Run>, es: seq<QueueEvent>, r: nat, until: int)
    requires Protected(runs, r, until) && KeepsLease(es, r, until)
    ensures Protected(QueueHistory(runs, es), r, until)
  {
    if es != [] {
      var n := |es| - 1;
      ProtectedThrough(runs, es[..n], r, until);
      hide QueueStep;
      StaysProtected(QueueHistory(runs, es[..n]), es[n], r, until);
    }
  }

  /**
   A live lease protects: after a claim or a holder's beat that leases the run until some instant, whatever else
   happens, no reclaim up to and including that instant touches the queue on its account.
   */
  lemma {:induction false} LiveLeaseProtects(runs: seq<Run>, e: QueueEvent, r: nat, es: seq<QueueEvent>, active: bool, now: int)
    requires Leases(runs, e, r) && KeepsLease(es, r, Until(e)) && now <= Until(e)
    ensures var runs' := QueueHistory(QueueStep(runs, e), es); QueueStep(runs', Expire(r, active, now)) == runs'
  {
    LeaseStarts(runs, e, r);
    ProtectedThrough(QueueStep(runs, e), es, r, Until(e));
    hide QueueHistory;
  }

  /** Neither the worker nor a reclaim says anything about the run. */
  ghost predicate Silent(es: seq<QueueEvent>, r: nat) {
    forall i :: 0 <= i < |es| && !es[i].Submit? && es[i].run == r ==> es[i].Take? || es[i].Cancel?
  }

  lemma {:induction false} SilenceKeeps(runs: seq<Run>, es: seq<QueueEvent>, r: nat)
    requires r < |runs| && runs[r].status == Running && Silent(es, r)
    ensures var runs' := QueueHistory(runs, es);
            r < |runs'| && runs'[r] == runs[r].(cancelRequested := runs'[r].cancelRequested)
  {
    if es != [] {
      SilenceKeeps(runs, es[..|es| - 1], r);
    }
  }

  /**
   When the worker falls silent after leasing the run, a reclaim abandons it exactly when it comes after the lease has
   run out, and then resumes it exactly while attempts are left and the source is active.
   */
  lemma {:induction false} SilentRunIsReclaimedIff(runs: seq<Run>, e: QueueEvent, r: nat, es: seq<QueueEvent>, active: bool, now: int)
    requires QueueOk(runs) && Leases(runs, e, r) && Silent(es, r)
    ensures var runs' := QueueHistory(QueueStep(runs, e), es);
            var out := QueueStep(runs', Expire(r, active, now));
            && r < |out|
            && (out[r].status == Abandoned <==> Until(e) < now)
            && (out == runs' <==> now <= Until(e))
            && (|out| == |runs'| + 1 <==> Until(e) < now && runs[r].attempt <= 3 && active)
            && (|out| == |runs'| + 1 ==> out[|runs'|].resumedFrom == Some(r) && out[|runs'|].status == Queued)
  {
    var leased := QueueStep(runs, e);
    var runs' := QueueHistory(leased, es);
    LeaseStarts(runs, e, r);
    QueueStepKeepsQueueOk(runs, e);
    HistoryKeepsQueueOk(leased, es);
    SilenceKeeps(leased, es, r);
    assert leased[r].attempt == runs[r].attempt;
    ReclaimResumesIff(runs', r, active, now);
    hide QueueOk, QueueHistory, Reclaim, Leases;
  }

  lemma {:induction false} HistoryKeepsQueueOk(runs: seq<Run>, es: seq<QueueEvent>)
    requires QueueOk(runs)
    ensures QueueOk(QueueHistory(runs, es))
  {
    hide QueueOk, QueueStep;
    if es != [] {
      HistoryKeepsQueueOk(runs, es[..|es| - 1]);
      QueueStepKeepsQueueOk(QueueHistory(runs, es[..|es| - 1]), es[|es| - 1]);
    }
  }

  /** A run queued for later is refused to workers before its time and handed out from then on. */
  lemma {:induction false} SubmittedIsTakenIff(runs: seq<Run>, e: QueueEvent, worker: Actor, now: int, lease: nat)
    requires e.Submit? && forall i :: 0 <= i < |runs| && runs[i].source == e.source ==> runs[i].status !in {Queued, Running}
    ensures var runs', r := QueueStep(runs, e), |runs|;
            && |runs'| == |runs| + 1
            && runs'[r].kind == e.kind && runs'[r].options == e.options && runs'[r].attempt == 1 && runs'[r].resumedFrom == None
            && !runs'[r].cancelRequested && runs'[r].requestedBy == e.who && runs'[r].queuedAt == e.now && runs'[r].batch == e.batch
            && (e.notBefore <= now <==> QueueStep(runs', Take(r, worker, now, lease)) != runs')
  {
    var run := NewRun(e.source, e.kind, e.options, e.who, e.batch, e.now, e.notBefore);
    assert QueueStep(runs, e)[|runs|] == run;
    var taken := QueueStep(runs + [run], Take(|runs|, worker, now, lease));
    assert e.notBefore <= now ==> taken[|runs|].status == Running;
  }

  /** A source with a queued or running run accepts no other. */
  lemma {:induction false} BusySourceRefuses(runs: seq<Run>, e: QueueEvent, i: nat)
    requires e.Submit? && i < |runs| && runs[i].source == e.source && runs[i].status in {Queued, Running}
    ensures QueueStep(runs, e) == runs
  {
    assert ActiveFor(runs[i], e.source);
  }
}
