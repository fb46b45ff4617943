/**
 The publish, removal and review transactions as they run: ordered updates of the tables, row by row. Each is
 proved to leave the tables exactly as the transition functions of `ListStore` say.
 */
module PublishTables {
  import opened Base
  import opened Canonical
  import opened Scd2
  import opened ListStore
  import opened ListStoreProofs
  import opened Staging

  datatype ChangeCounts = ChangeCounts(added: nat, relisted: nat, changed: nat, removed: nat)

  /** The record was on the list before, under an earlier version. */
  predicate EverListed(rows: seq<Row>, k: Key) { exists i :: 0 <= i < |rows| && rows[i].key == k }

  /** New keys that are old acquaintances: RELIST rather than ADD. */
  function Returning(rows: seq<Row>, open: map<Key, Doc>, staged: map<Key, Doc>): set<Key> {
    set k | k in Added(open, staged) && EverListed(rows, k)
  }

  class Tables {
    var rows: seq<Row>
    var versions: seq<Version>
    var removals: seq<Removal>
    var proposals: seq<Proposal>
    var current: Option<nat>
    var crosslist: set<CrossKey>
    var log: seq<Publication>

    constructor ()
      ensures Contents() == EmptyStore && StoreOk(Contents())
    {
      rows, versions, removals, proposals, current, crosslist, log := [], [], [], [], None, {}, [];
      new;
      EmptyStoreOk();
    }

    function Contents(): Store
      reads this
    {
      Store(rows, versions, removals, proposals, current, crosslist, log)
    }

    /** `SELECT ... WHERE valid_to_seq IS NULL` as a lookup table. */
    method OpenRows() returns (open: map<Key, Doc>)
      ensures open == Open(rows)
    {
      open := map[];
      for i := 0 to |rows|
        invariant open == Open(rows[..i])
      {
        assert rows[..i + 1][..i] == rows[..i];
        if IsOpen(rows[i]) {
          open := open[rows[i].key := rows[i].doc];
        }
      }
      assert rows[..|rows|] == rows;
    }

    /** The staged side of the join. */
    method CountStaged(open: map<Key, Doc>, recs: seq<Rec>) returns (added: nat, changed: nat, same: nat)
      requires DistinctKeys(recs)
      ensures added == |Added(open, AsMap(recs))| && changed == |Changed(open, AsMap(recs))| && same == |Unchanged(open, AsMap(recs))|
    {
      hide AsMap, Added, Changed, Unchanged, Removed;
      EmptyDiff(open, map[]);
      added, changed, same := 0, 0, 0;
      for i := 0 to |recs|
        invariant added == |Added(open, AsMap(recs[..i]))|
        invariant changed == |Changed(open, AsMap(recs[..i]))|
        invariant same == |Unchanged(open, AsMap(recs[..i]))|
      {
        var r := recs[i];
        StagedStep(recs, i);
        OneMoreStaged(open, AsMap(recs[..i]), r.key, r.doc);
        if r.key !in open {
          added := added + 1;
        } else if open[r.key] == r.doc {
          same := same + 1;
        } else {
          changed := changed + 1;
        }
      }
      assert recs[..|recs|] == recs;
    }

    /** The side of the open rows. */
    method CountOpen(staged: map<Key, Doc>, ghost pub: nat) returns (previous: nat, removed: nat)
      requires RowsOk(rows, pub)
      ensures previous == |Open(rows)| && removed == |Removed(Open(rows), staged)|
    {
      hide RowsOk, Open, Removed, Added, Changed, Unchanged, AsMap;
      EmptyDiff(map[], staged);
      previous, removed := 0, 0;
      for i := 0 to |rows|
        invariant previous == |Open(rows[..i])| && removed == |Removed(Open(rows[..i]), staged)|
      {
        OpenStep(rows, i, pub);
        if IsOpen(rows[i]) {
          OneMoreOpen(Open(rows[..i]), staged, rows[i].key, rows[i].doc);
          previous := previous + 1;
          if rows[i].key !in staged {
            removed := removed + 1;
          }
        }
      }
      assert rows[..|rows|] == rows;
    }

    /**
     The full outer join of staging and the open rows, counted. What the gate judges is exactly the diff of the
     two maps that publishing will apply.
     */
    method DiffPreview(recs: seq<Rec>) returns (d: Diff)
      requires StoreOk(Contents()) && DistinctKeys(recs)
      ensures d == Preview(Open(rows), AsMap(recs))
    {
      ghost var pub := Pub(Contents());
      assert RowsOk(rows, pub);
      hide StoreOk, RowsOk, Open, AsMap, Added, Removed, Changed, Unchanged;
      var open := OpenRows();
      var added, changed, same := CountStaged(open, recs);
      var previous, removed := CountOpen(AsMap(recs), pub);
      d := Diff(previous, added, changed, removed, same);
    }

    /** The change events of a publish: they are exactly the previewed additions, changes and removals. */
    method CountChanges(recs: seq<Rec>) returns (c: ChangeCounts)
      requires StoreOk(Contents()) && DistinctKeys(recs)
      ensures var d := Preview(Open(rows), AsMap(recs));
              c.added + c.relisted == d.added && c.changed == d.changed && c.removed == d.removed
      ensures c.relisted == |(AsMap(recs).Keys - Open(rows).Keys) * (set i | 0 <= i < |rows| :: rows[i].key)|
    {
      var d := DiffPreview(recs);
      hide StoreOk, Open, AsMap, Added, Returning, EverListed;
      var open := OpenRows();
      var added, relisted := 0, 0;
      EmptyDiff(open, map[]);
      NoneReturning(rows, open);
      for i := 0 to |recs|
        invariant added + relisted == |Added(open, AsMap(recs[..i]))|
        invariant relisted == |Returning(rows, open, AsMap(recs[..i]))|
      {
        var r := recs[i];
        StagedStep(recs, i);
        OneMoreStaged(open, AsMap(recs[..i]), r.key, r.doc);
        OneMoreReturning(rows, open, AsMap(recs[..i]), r.key, r.doc);
        if r.key !in open {
          if EverListed(rows, r.key) {
            relisted := relisted + 1;
          } else {
            added := added + 1;
          }
        }
      }
      assert recs[..|recs|] == recs;
      ReturningIs(rows, open, AsMap(recs));
      c := ChangeCounts(added, relisted, d.changed, d.removed);
    }

    /** UPDATE record_version SET valid_to_seq: changed and vanished rows end at `n`. */
    method CloseRows(staged: map<Key, Doc>, n: nat)
      modifies `rows
      ensures rows == Close(old(rows), staged, n)
    {
      for i := 0 to |rows|
        invariant |rows| == |old(rows)|
        invariant forall k :: 0 <= k < i ==> rows[k] == CloseRow(old(rows)[k], staged, n)
        invariant forall k :: i <= k < |rows| ==> rows[k] == old(rows)[k]
      {
        var r := rows[i];
        if IsOpen(r) && !(r.key in staged && staged[r.key] == r.doc) {
          rows := rows[i := r.(to := Some(n))];
        }
      }
    }

    /** INSERT INTO record_version: one open row per added, changed or relisted record. */
    method InsertRows(open: map<Key, Doc>, recs: seq<Rec>, n: nat)
      modifies `rows
      ensures rows == old(rows) + Insert(open, recs, n)
    {
      for i := 0 to |recs|
        invariant rows == old(rows) + Insert(open, recs[..i], n)
      {
        var r := recs[i];
        assert recs[..i + 1][..i] == recs[..i];
        if !(r.key in open && open[r.key] == r.doc) {
          rows := rows + [Row(r.key, r.doc, n, None)];
        }
      }
      assert recs[..|recs|] == recs;
    }

    /** INSERT INTO removal_candidate ... ON CONFLICT DO NOTHING: one candidate per vanished row, none for a key already held. */
    method FileCandidates(before: seq<Row>, staged: map<Key, Doc>, vid: nat, ghost pub: nat)
      requires RowsOk(before, pub)
      modifies `removals
      ensures removals == old(removals) + FileRemovals(before, staged, HoldingKeys(old(removals)), vid)
    {
      ghost var held := HoldingKeys(removals);
      assert removals + [] == removals;
      for i := 0 to |before|
        invariant removals == old(removals) + FileRemovals(before[..i], staged, held, vid)
      {
        var r := before[i];
        assert before[..i + 1][..i] == before[..i];
        FiledKeys(old(removals), before, staged, held, vid, i, pub);
        if IsOpen(r) && r.key !in staged && r.key !in HoldingKeys(removals) {
          removals := removals + [Removal(r.key, i, vid, Pending, None)];
        }
      }
      assert before[..|before|] == before;
    }

    /** UPDATE removal_candidate SET status = 'RELISTED': held keys that came back. */
    method RelistCandidates(open: map<Key, Doc>, staged: map<Key, Doc>)
      modifies `removals
      ensures removals == RelistRemovals(old(removals), open, staged)
    {
      for i := 0 to |removals|
        invariant |removals| == |old(removals)|
        invariant forall k :: 0 <= k < i ==> removals[k] == RelistOne(old(removals)[k], open, staged)
        invariant forall k :: i <= k < |removals| ==> removals[k] == old(removals)[k]
      {
        var r := removals[i];
        if Holding(r.status) && r.key in staged && r.key !in open {
          removals := removals[i := r.(status := Relisted, decidedBy := Some(SYSTEM))];
        }
      }
    }

    /** DELETE and rebuild the cross-list index from the open rows. */
    method RefreshCrosslist()
      modifies `crosslist
      ensures crosslist == CrosslistOf(rows)
    {
      crosslist := {};
      for i := 0 to |rows|
        invariant crosslist == CrosslistOf(rows[..i])
      {
        CrosslistStep(rows, i);
        if IsOpen(rows[i]) {
          var keys: set<CrossKey> := {};
          var ids := rows[i].doc.identifiers;
          for j := 0 to |ids|
            invariant keys == set q | 0 <= q < j && Indexed(ids[q]) :: CrossKey(ids[q].kind, CrossValue(ids[q]), rows[i].key, i)
          {
            if Indexed(ids[j]) {
              keys := keys + {CrossKey(ids[j].kind, CrossValue(ids[j]), rows[i].key, i)};
            }
          }
          crosslist := crosslist + keys;
        }
      }
      assert rows[..|rows|] == rows;
    }

    /** UPDATE list_version: the live version and older held ones give way, then `vid` goes live. */
    method SwitchVersion(vid: nat, who: Option<Actor>)
      requires vid < |versions| && versions[vid].status != Published
      modifies `versions, `current
      ensures versions == PublishVersions(old(versions), vid, who) && current == Some(vid)
    {
      var n := versions[vid].seqNo;
      for i := 0 to |versions|
        invariant |versions| == |old(versions)|
        invariant forall k :: 0 <= k < i ==> versions[k] == SupersedeOne(old(versions)[k], n)
        invariant forall k :: i <= k < |versions| ==> versions[k] == old(versions)[k]
      {
        if versions[i].status == Published {
          versions := versions[i := versions[i].(status := Superseded)];
        }
        if versions[i].status == Held && versions[i].seqNo < n {
          versions := versions[i := versions[i].(status := Superseded)];
        }
      }
      versions := versions[vid := versions[vid].(status := Published, releasedBy := who)];
      current := Some(vid);
    }

    /** UPDATE proposed_change SET status = 'EXPIRED': release proposals for any other version. */
    method ExpireReleases(vid: nat)
      modifies `proposals
      ensures proposals == ExpireProposals(old(proposals), vid)
    {
      for i := 0 to |proposals|
        invariant |proposals| == |old(proposals)|
        invariant forall k :: 0 <= k < i ==> proposals[k] == ExpireOne(old(proposals)[k], vid)
        invariant forall k :: i <= k < |proposals| ==> proposals[k] == old(proposals)[k]
      {
        var p := proposals[i];
        if p.subject.LargeChangeRelease? && p.status == Awaiting && p.subject.version != vid {
          proposals := proposals[i := p.(status := Expired)];
        }
      }
    }

    method NewerPublished(n: nat) returns (newer: bool)
      ensures newer <==> Outdated(versions, n)
    {
      newer := false;
      for i := 0 to |versions|
        invariant newer <==> Outdated(versions[..i], n)
      {
        assert versions[..i + 1][..i] == versions[..i];
        OutdatedStep(versions, i, n);
        if PublishedOrSuperseded(versions[i].status) && n < versions[i].seqNo {
          newer := true;
        }
      }
      assert versions[..|versions|] == versions;
    }

    /** The statements of a publish that is not refused, in their order. */
    method WritePublication(vid: nat, recs: seq<Rec>, run: nat, who: Option<Actor>)
      requires StoreOk(Contents()) && Publishable(Contents(), vid) && DistinctKeys(recs)
      modifies this
      ensures Contents() == PublishEffect(old(Contents()), vid, recs, run, who)
    {
      ghost var st := Contents();
      var n := versions[vid].seqNo;
      assert RowsOk(st.rows, Pub(st));
      hide StoreOk, Publishable, RowsOk, DistinctKeys;
      var before := rows;
      var open := OpenRows();
      var staged := AsMap(recs);
      CloseRows(staged, n);
      InsertRows(open, recs, n);
      FileCandidates(before, staged, vid, Pub(st));
      FiledAreNotRelisted(st.removals, before, staged, vid, Pub(st));
      hide Open, AsMap, Close, Insert, FileRemovals, RelistRemovals, HoldingKeys, CrosslistOf, PublishVersions, ExpireProposals;
      RelistCandidates(open, staged);
      RefreshCrosslist();
      SwitchVersion(vid, who);
      ExpireReleases(vid);
      log := log + [Publication(n, staged, run)];
    }

    /** The publish transaction: refused without a trace, or the whole effect. */
    method PublishVersion(vid: nat, recs: seq<Rec>, run: nat, who: Option<Actor>) returns (error: Option<PublishError>)
      requires StoreOk(Contents()) && DistinctKeys(recs)
      modifies this
      ensures match Publish(old(Contents()), vid, recs, run, who)
              case Ok(st) => error == None && Contents() == st
              case Err(e) => error == Some(e) && Contents() == old(Contents())
      ensures StoreOk(Contents())
    {
      PublishSucceedsIff(Contents(), vid, recs, run, who);
      if vid >= |versions| {
        return Some(NoSuchVersion);
      }
      if versions[vid].status !in {Candidate, Validated, Held} {
        return Some(WrongStatus);
      }
      var newer := NewerPublished(versions[vid].seqNo);
      if newer {
        return Some(PublishError.NewerPublished);
      }
      hide StoreOk, PublishEffect, Publishable, Outdated, DistinctKeys;
      PublishKeepsStoreOk(Contents(), vid, recs, run, who);
      WritePublication(vid, recs, run, who);
      error := None;
    }

    /** The dedupe key of a pending confirmation proposal. */
    method ConfirmationWaiting(c: nat) returns (waiting: bool)
      ensures waiting <==> AwaitingConfirmation(proposals, c)
    {
      waiting := false;
      for i := 0 to |proposals|
        invariant waiting <==> AwaitingConfirmation(proposals[..i], c)
      {
        AwaitingStep(proposals, i, c);
        var p := proposals[i];
        if p.status == Awaiting && p.subject.RemovalConfirmation? && p.subject.candidate == c {
          waiting := true;
        }
      }
      assert proposals[..|proposals|] == proposals;
    }

    /** Look for evidence on a held removal; file one confirmation proposal unless one is waiting. */
    method AssessRemoval(c: nat, evidence: bool, hits: bool, suspects: bool, who: Actor)
      requires StoreOk(Contents())
      modifies `removals, `proposals
      ensures Contents() == Assess(old(Contents()), c, evidence, hits, suspects, who) && StoreOk(Contents())
      ensures Blocking(Contents()) == old(Blocking(Contents()))
    {
      hide StoreOk, AwaitingConfirmation, Blocking, Assess;
      AssessKeepsStoreOk(Contents(), c, evidence, hits, suspects, who);
      AssessKeepsHeld(Contents(), c, evidence, hits, suspects, who);
      WriteAssessment(c, evidence, hits, suspects, who);
    }

    /** The statements of an assessment, in their order. */
    method WriteAssessment(c: nat, evidence: bool, hits: bool, suspects: bool, who: Actor)
      modifies `removals, `proposals
      ensures Contents() == Assess(old(Contents()), c, evidence, hits, suspects, who)
    {
      hide AwaitingConfirmation;
      if c >= |removals| || !Holding(removals[c].status) {
        return;
      }
      if evidence {
        removals := removals[c := removals[c].(status := EvidenceFound)];
      }
      var recommendation := None;
      if suspects && !evidence {
        recommendation := Some(RejectAsIdChange);
      } else if evidence && hits {
        recommendation := Some(ReleaseListedElsewhere);
      } else if evidence {
        recommendation := Some(Confirm);
      }
      if recommendation.Some? {
        var waiting := ConfirmationWaiting(c);
        if !waiting {
          proposals := proposals + [Proposal(RemovalConfirmation(c, recommendation.value), who, Awaiting, None)];
        }
      }
    }

    /** Apply a reviewer's resolution; a candidate that is no longer held is left alone. */
    method ResolveRemoval(c: nat, resolution: Resolution, reviewer: Actor)
      requires StoreOk(Contents())
      modifies `removals
      ensures Contents() == Resolve(old(Contents()), c, resolution, reviewer) && StoreOk(Contents())
    {
      ResolveKeepsStoreOk(Contents(), c, resolution, reviewer);
      if c < |removals| && Holding(removals[c].status) {
        removals := removals[c := removals[c].(status := Outcome(resolution), decidedBy := Some(reviewer))];
      }
    }
  }

  // ---------------------------------------------------------------------------------------------
  // Why the row-by-row updates add up
  // ---------------------------------------------------------------------------------------------

  lemma {:induction false} OneMore(a: set<Key>, b: set<Key>, k: Key)
    requires k !in a && b == a + {k}
    ensures |b| == |a| + 1
  {
  }

  lemma {:induction false} EmptyDiff(open: map<Key, Doc>, staged: map<Key, Doc>)
    ensures AsMap([]) == map[] && Open([]) == map[]
    ensures Added(open, map[]) == {} && Changed(open, map[]) == {} && Unchanged(open, map[]) == {} && Removed(map[], staged) == {}
  {
  }

  lemma {:induction false} ClassesGrow(open: map<Key, Doc>, a: map<Key, Doc>, k: Key, doc: Doc)
    requires k !in a
    ensures var b, one := a[k := doc], {k};
            && k !in Added(open, a) && k !in Changed(open, a) && k !in Unchanged(open, a)
            && Added(open, b) == Added(open, a) + (if k !in open then one else {})
            && Changed(open, b) == Changed(open, a) + (if k in open && open[k] != doc then one else {})
            && Unchanged(open, b) == Unchanged(open, a) + (if k in open && open[k] == doc then one else {})
  {
  }

  lemma {:induction false} OneMoreIf(a: set<Key>, b: set<Key>, k: Key, c: bool)
    requires k !in a && b == a + (if c then {k} else {})
    ensures |b| == |a| + (if c then 1 else 0)
  {
    if c {
      OneMore(a, b, k);
    } else {
      assert b == a;
    }
  }

  /** One more staged record is one more in exactly one of the three classes. */
  lemma {:induction false} OneMoreStaged(open: map<Key, Doc>, a: map<Key, Doc>, k: Key, doc: Doc)
    requires k !in a
    ensures var b := a[k := doc];
            && |Added(open, b)| == |Added(open, a)| + (if k !in open then 1 else 0)
            && |Changed(open, b)| == |Changed(open, a)| + (if k in open && open[k] != doc then 1 else 0)
            && |Unchanged(open, b)| == |Unchanged(open, a)| + (if k in open && open[k] == doc then 1 else 0)
  {
    hide Added, Changed, Unchanged;
    var b := a[k := doc];
    ClassesGrow(open, a, k, doc);
    OneMoreIf(Added(open, a), Added(open, b), k, k !in open);
    OneMoreIf(Changed(open, a), Changed(open, b), k, k in open && open[k] != doc);
    OneMoreIf(Unchanged(open, a), Unchanged(open, b), k, k in open && open[k] == doc);
  }

  /** The returning keys are those staged and not open that some row has. */
  lemma {:induction false} ReturningIs(rows: seq<Row>, open: map<Key, Doc>, staged: map<Key, Doc>)
    ensures Returning(rows, open, staged) == (staged.Keys - open.Keys) * (set i | 0 <= i < |rows| :: rows[i].key)
  {
  }

  lemma {:induction false} NoneReturning(rows: seq<Row>, open: map<Key, Doc>)
    ensures Returning(rows, open, map[]) == {}
  {
  }

  lemma {:induction false} OneMoreReturning(rows: seq<Row>, open: map<Key, Doc>, a: map<Key, Doc>, k: Key, doc: Doc)
    requires k !in a
    ensures |Returning(rows, open, a[k := doc])| == |Returning(rows, open, a)| + (if k !in open && EverListed(rows, k) then 1 else 0)
  {
    hide EverListed;
    ReturningGrows(rows, open, a, k, doc);
    OneMoreIf(Returning(rows, open, a), Returning(rows, open, a[k := doc]), k, k !in open && EverListed(rows, k));
  }

  lemma {:induction false} ReturningGrows(rows: seq<Row>, open: map<Key, Doc>, a: map<Key, Doc>, k: Key, doc: Doc)
    requires k !in a
    ensures k !in Returning(rows, open, a)
    ensures Returning(rows, open, a[k := doc]) == Returning(rows, open, a) + (if k !in open && EverListed(rows, k) then {k} else {})
  {
    hide EverListed;
  }

  lemma {:induction false} StagedStep(recs: seq<Rec>, i: nat)
    requires DistinctKeys(recs) && i < |recs|
    ensures recs[i].key !in AsMap(recs[..i])
    ensures AsMap(recs[..i + 1]) == AsMap(recs[..i])[recs[i].key := recs[i].doc]
  {
    assert recs[..i + 1][..i] == recs[..i];
    AsMapSound(recs[..i]);
  }

  lemma {:induction false} RemovedGrows(a: map<Key, Doc>, staged: map<Key, Doc>, k: Key, doc: Doc)
    requires k !in a
    ensures k !in Removed(a, staged) && a[k := doc].Keys == a.Keys + {k}
    ensures Removed(a[k := doc], staged) == Removed(a, staged) + (if k !in staged then {k} else {})
  {
  }

  /** One more open row is one more current record, and one more removal if staging lacks its key. */
  lemma {:induction false} OneMoreOpen(a: map<Key, Doc>, staged: map<Key, Doc>, k: Key, doc: Doc)
    requires k !in a
    ensures |a[k := doc]| == |a| + 1
    ensures |Removed(a[k := doc], staged)| == |Removed(a, staged)| + (if k !in staged then 1 else 0)
  {
    hide Removed;
    var b := a[k := doc];
    RemovedGrows(a, staged, k, doc);
    OneMoreIf(Removed(a, staged), Removed(b, staged), k, k !in staged);
    OneMore(a.Keys, b.Keys, k);
    assert |b| == |b.Keys| && |a| == |a.Keys|;
  }

  lemma {:induction false} OpenStep(rows: seq<Row>, i: nat, pub: nat)
    requires RowsOk(rows, pub) && i < |rows|
    ensures IsOpen(rows[i]) ==> rows[i].key !in Open(rows[..i])
    ensures Open(rows[..i + 1]) == if IsOpen(rows[i]) then Open(rows[..i])[rows[i].key := rows[i].doc] else Open(rows[..i])
  {
    assert rows[..i + 1][..i] == rows[..i];
    OpenSound(rows[..i], pub);
  }

  /** The unique index on holding candidates never rejects a vanished row: open keys are distinct. */
  lemma {:induction false} FiledKeys(rs: seq<Removal>, before: seq<Row>, staged: map<Key, Doc>, held: set<Key>, vid: nat, i: nat, pub: nat)
    requires RowsOk(before, pub) && i < |before| && held == HoldingKeys(rs)
    ensures IsOpen(before[i]) ==>
              (before[i].key in HoldingKeys(rs + FileRemovals(before[..i], staged, held, vid)) <==> before[i].key in held)
  {
    var new' := FileRemovals(before[..i], staged, held, vid);
    var all := rs + new';
    FileRemovalsSound(before[..i], staged, held, vid);
    if IsOpen(before[i]) {
      if before[i].key in held {
        var j := HolderOf(rs, before[i].key);
        assert all[j].key == before[i].key;
      }
      if before[i].key in HoldingKeys(all) {
        var j := HolderOf(all, before[i].key);
        assert j < |rs| ==> all[j] == rs[j];
      }
    }
  }

  /** Relisting after filing touches only the older candidates. */
  lemma {:induction false} FiledAreNotRelisted(rs: seq<Removal>, before: seq<Row>, staged: map<Key, Doc>, vid: nat, pub: nat)
    requires RowsOk(before, pub)
    ensures RelistRemovals(rs + FileRemovals(before, staged, HoldingKeys(rs), vid), Open(before), staged)
         == NextRemovals(rs, before, staged, vid)
  {
    var new' := FileRemovals(before, staged, HoldingKeys(rs), vid);
    FileRemovalsSound(before, staged, HoldingKeys(rs), vid);
    forall i | 0 <= i < |new'| ensures RelistOne(new'[i], Open(before), staged) == new'[i] {
    }
  }

  lemma {:induction false} CrosslistStep(rows: seq<Row>, i: nat)
    requires i < |rows|
    ensures CrosslistOf(rows[..i + 1]) == CrosslistOf(rows[..i]) + if IsOpen(rows[i]) then RowKeys(i, rows[i]) else {}
  {
    var a, b := rows[..i], rows[..i + 1];
    forall x | x in CrosslistOf(b) ensures x in CrosslistOf(a) || (IsOpen(rows[i]) && x in RowKeys(i, rows[i])) {
      var q :| 0 <= q < |b| && IsOpen(b[q]) && x in RowKeys(q, b[q]);
      if q < i {
        assert a[q] == b[q];
      }
    }
    forall x | x in CrosslistOf(a) ensures x in CrosslistOf(b) {
      var q :| 0 <= q < |a| && IsOpen(a[q]) && x in RowKeys(q, a[q]);
      assert a[q] == b[q];
    }
    assert b[i] == rows[i];
  }

  lemma {:induction false} AwaitingStep(ps: seq<Proposal>, i: nat, c: nat)
    requires i < |ps|
    ensures AwaitingConfirmation(ps[..i + 1], c)
       <==> AwaitingConfirmation(ps[..i], c)
            || (ps[i].status == Awaiting && ps[i].subject.RemovalConfirmation? && ps[i].subject.candidate == c)
  {
    var a, b := ps[..i], ps[..i + 1];
    assert b[i] == ps[i];
    if AwaitingConfirmation(a, c) {
      var q :| 0 <= q < |a| && a[q].status == Awaiting && a[q].subject.RemovalConfirmation? && a[q].subject.candidate == c;
      assert b[q] == a[q];
    }
    if AwaitingConfirmation(b, c) {
      var q :| 0 <= q < |b| && b[q].status == Awaiting && b[q].subject.RemovalConfirmation? && b[q].subject.candidate == c;
      assert q < i ==> a[q] == b[q];
    }
  }

  lemma {:induction false} OutdatedStep(versions: seq<Version>, i: nat, n: nat)
    requires i < |versions|
    ensures Outdated(versions[..i + 1], n)
       <==> Outdated(versions[..i], n) || (PublishedOrSuperseded(versions[i].status) && n < versions[i].seqNo)
  {
    var a, b := versions[..i], versions[..i + 1];
    assert b[i] == versions[i];
    if Outdated(a, n) {
      var q :| 0 <= q < |a| && PublishedOrSuperseded(a[q].status) && n < a[q].seqNo;
      assert b[q] == a[q];
    }
    if Outdated(b, n) {
      var q :| 0 <= q < |b| && PublishedOrSuperseded(b[q].status) && n < b[q].seqNo;
      assert q < i ==> a[q] == b[q];
    }
  }
}
