/** The PARSE loop and the diff of a staged list against the current one. */
module Staging {
  import opened Base
  import opened Canonical

  /** Rows per staging flush. */
  const BATCH := 5000

  function KeysOf(recs: seq<Rec>): set<Key> {
    set i | 0 <= i < |recs| :: recs[i].key
  }

  /** The records a parse keeps: the first one of every key, in file order. */
  function FirstByKey(recs: seq<Rec>): seq<Rec> {
    if recs == [] then []
    else
      var kept, last := FirstByKey(recs[..|recs| - 1]), recs[|recs| - 1];
      if last.key in KeysOf(kept) then kept else kept + [last]
  }

  lemma {:induction false} KeysOfAppend(recs: seq<Rec>, r: Rec)
    ensures KeysOf(recs + [r]) == KeysOf(recs) + {r.key}
  {
    var all := recs + [r];
    forall k | k in KeysOf(recs) + {r.key} ensures k in KeysOf(all) {
      if k == r.key {
        assert all[|recs|].key == k;
      } else {
        var i :| 0 <= i < |recs| && recs[i].key == k;
        assert all[i].key == k;
      }
    }
  }

  lemma {:induction false} FirstByKeyDistinct(recs: seq<Rec>)
    ensures DistinctKeys(FirstByKey(recs))
    ensures |FirstByKey(recs)| <= |recs|
  {
    if recs != [] {
      var kept := FirstByKey(recs[..|recs| - 1]);
      FirstByKeyDistinct(recs[..|recs| - 1]);
      assert forall i :: 0 <= i < |kept| ==> kept[i].key in KeysOf(kept);
    }
  }

  /** No key of the file is lost, and none is invented. */
  lemma {:induction false} KeysAreKept(recs: seq<Rec>)
    ensures KeysOf(FirstByKey(recs)) == KeysOf(recs)
  {
    if recs != [] {
      var init, last := recs[..|recs| - 1], recs[|recs| - 1];
      KeysAreKept(init);
      KeysOfAppend(init, last);
      assert init + [last] == recs;
      KeysOfAppend(FirstByKey(init), last);
      assert last.key in KeysOf(init) ==> KeysOf(recs) == KeysOf(init);
    }
  }

  /** What staging means: every staged record is the first occurrence of its key in the file. */
  lemma {:induction false} StagedIsFirst(recs: seq<Rec>, s: nat) returns (o: nat)
    requires s < |FirstByKey(recs)|
    ensures o < |recs| && recs[o] == FirstByKey(recs)[s]
    ensures forall j :: 0 <= j < o ==> recs[j].key != recs[o].key
  {
    var n := |recs| - 1;
    var init, kept := recs[..n], FirstByKey(recs[..n]);
    if s < |kept| {
      o := StagedIsFirst(init, s);
      forall j | 0 <= j < o ensures recs[j].key != recs[o].key {
        assert init[j] == recs[j];
      }
    } else {
      o := n;
      KeysAreKept(init);
      forall j | 0 <= j < n ensures recs[j].key != recs[n].key {
        assert init[j].key in KeysOf(init);
      }
    }
  }

  /** Nothing else decides: the map of the staged set at a key is the document of the key's first record. */
  lemma {:induction false} StagedMapIsFirst(recs: seq<Rec>, i: nat)
    requires i < |recs| && forall j :: 0 <= j < i ==> recs[j].key != recs[i].key
    ensures recs[i].key in AsMap(FirstByKey(recs)) && AsMap(FirstByKey(recs))[recs[i].key] == recs[i].doc
  {
    var staged := FirstByKey(recs);
    KeysAreKept(recs);
    assert recs[i].key in KeysOf(recs);
    var s :| 0 <= s < |staged| && staged[s].key == recs[i].key;
    var o := StagedIsFirst(recs, s);
    assert o == i;
    FirstByKeyDistinct(recs);
    AsMapSound(staged);
  }

  /** What the parse step reports. */
  datatype ParseReport = ParseReport(staged: seq<Rec>, done: nat, duplicates: nat)

  lemma {:induction false} FirstByKeyStep(recs: seq<Rec>, i: nat)
    requires i < |recs|
    ensures FirstByKey(recs[..i + 1]) ==
              var kept := FirstByKey(recs[..i]);
              if recs[i].key in KeysOf(kept) then kept else kept + [recs[i]]
  {
    assert recs[..i + 1][..i] == recs[..i];
  }

  /**
   The parse loop: skip keys already seen, collect a batch, flush it to staging whenever it is full and once
   at the end. Whatever the batch size, what is staged is the first record of every key.
   */
  method Parse(recs: seq<Rec>, batchSize: nat) returns (r: ParseReport)
    requires 0 < batchSize
    ensures r.staged == FirstByKey(recs)
    ensures r.done == |FirstByKey(recs)| && r.done + r.duplicates == |recs|
  {
    var staged: seq<Rec>, batch: seq<Rec>, seen: set<Key> := [], [], {};
    var done, duplicates := 0, 0;
    for i := 0 to |recs|
      invariant staged + batch == FirstByKey(recs[..i])
      invariant seen == KeysOf(staged + batch)
      invariant done == |staged + batch| && done + duplicates == i
    {
      FirstByKeyStep(recs, i);
      var rec := recs[i];
      if rec.key in seen {
        duplicates := duplicates + 1;
        continue;
      }
      KeysOfAppend(staged + batch, rec);
      assert staged + (batch + [rec]) == staged + batch + [rec];
      seen := seen + {rec.key};
      batch := batch + [rec];
      done := done + 1;
      if |batch| >= batchSize {
        assert staged + batch + [] == staged + batch;
        staged, batch := staged + batch, [];
      }
    }
    assert recs[..|recs|] == recs;
    if batch != [] {
      staged, batch := staged + batch, [];
    }
    assert staged == staged + batch;
    r := ParseReport(staged, done, duplicates);
  }

  // ---------------------------------------------------------------------------------------------
  // Diff against the current list
  // ---------------------------------------------------------------------------------------------

  datatype Diff = Diff(previous: nat, added: nat, changed: nat, removed: nat, same: nat)

  function Added(open: map<Key, Doc>, staged: map<Key, Doc>): set<Key> { staged.Keys - open.Keys }
  function Removed(open: map<Key, Doc>, staged: map<Key, Doc>): set<Key> { open.Keys - staged.Keys }
  function Changed(open: map<Key, Doc>, staged: map<Key, Doc>): set<Key> {
    set k | k in open && k in staged && open[k] != staged[k]
  }
  function Unchanged(open: map<Key, Doc>, staged: map<Key, Doc>): set<Key> {
    set k | k in open && k in staged && open[k] == staged[k]
  }

  function Preview(open: map<Key, Doc>, staged: map<Key, Doc>): Diff {
    Diff(|open|, |Added(open, staged)|, |Changed(open, staged)|, |Removed(open, staged)|, |Unchanged(open, staged)|)
  }

  /** Conservation: every staged record and every current record is counted exactly once. */
  lemma {:induction false} PreviewConserves(open: map<Key, Doc>, staged: map<Key, Doc>)
    ensures var d := Preview(open, staged);
            d.added + d.changed + d.same == |staged| && d.removed + d.changed + d.same == |open|
  {
    PartsOf(open, staged);
    ThreeParts(staged.Keys, Added(open, staged), Changed(open, staged), Unchanged(open, staged));
    ThreeParts(open.Keys, Removed(open, staged), Changed(open, staged), Unchanged(open, staged));
  }

  lemma {:induction false} PartsOf(open: map<Key, Doc>, staged: map<Key, Doc>)
    ensures staged.Keys == Added(open, staged) + Changed(open, staged) + Unchanged(open, staged)
    ensures open.Keys == Removed(open, staged) + Changed(open, staged) + Unchanged(open, staged)
    ensures Changed(open, staged) !! Unchanged(open, staged)
    ensures Added(open, staged) !! Changed(open, staged) && Added(open, staged) !! Unchanged(open, staged)
    ensures Removed(open, staged) !! Changed(open, staged) && Removed(open, staged) !! Unchanged(open, staged)
  {
  }

  lemma {:induction false} ThreeParts(whole: set<Key>, a: set<Key>, b: set<Key>, c: set<Key>)
    requires whole == a + b + c && a !! b && a !! c && b !! c
    ensures |whole| == |a| + |b| + |c|
  {
    assert |a + b| == |a| + |b|;
    assert |(a + b) + c| == |a + b| + |c|;
  }
}
