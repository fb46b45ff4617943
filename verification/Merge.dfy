/**
 The recursive patch an agent's proposal applies to a configuration: a JSON merge patch (RFC 7396, section 2)
 except that a null value is stored instead of deleting the key. The code patches dictionaries in place; only the
 dictionary it is handed changes, because every nested one is copied before it is descended into.
 */
module Merge {
  import opened Base
  import opened ConfigTree

  /** The merged tree: the patch wins, objects on both sides are merged key by key. */
  function Merged(base: Json, patch: Json): Json
    decreases patch
  {
    if base.Node? && patch.Node? then
      Node(map k | k in base.entries.Keys + patch.entries.Keys :: if k in patch.entries then MergedAt(base, patch, k) else base.entries[k])
    else patch
  }

  /** What the patch makes of key `k`. */
  function MergedAt(base: Json, patch: Json, k: string): Json
    requires patch.Node? && k in patch.entries
    decreases patch, 0
  {
    if patch.entries[k].Node? && Get(base, k).Node? then Merged(Get(base, k), patch.entries[k]) else patch.entries[k]
  }

  // ---------------------------------------------------------------------------------------------
  // Laws
  // ---------------------------------------------------------------------------------------------

  /** The position is made of keys the patch names. */
  predicate InPatch(patch: Json, p: Path)
    decreases |p|
  {
    p == [] || (p[0] in Keys(patch) && InPatch(Get(patch, p[0]), p[1..]))
  }

  lemma {:induction false} MergedGet(base: Json, patch: Json, k: string)
    requires base.Node? && patch.Node?
    ensures Get(Merged(base, patch), k)
         == if k !in Keys(patch) then Get(base, k)
            else if Get(patch, k).Node? && Get(base, k).Node? then Merged(Get(base, k), Get(patch, k))
            else Get(patch, k)
    ensures Keys(Merged(base, patch)) == Keys(base) + Keys(patch)
  {
  }

  /** Wherever the patch holds a value that is not an object, null included, that value is there afterwards. */
  lemma {:induction false} PatchWins(base: Json, patch: Json, p: Path)
    requires base.Node? && patch.Node? && InPatch(patch, p) && !At(patch, p).Node?
    ensures At(Merged(base, patch), p) == At(patch, p)
    decreases |p|
  {
    if p != [] {
      MergedGet(base, patch, p[0]);
      if Get(patch, p[0]).Node? && Get(base, p[0]).Node? {
        PatchWins(Get(base, p[0]), Get(patch, p[0]), p[1..]);
      }
    }
  }

  /** A position that leaves the patch through keys it does not name, between objects, keeps its value. */
  lemma {:induction false} RestIsKept(base: Json, patch: Json, p: Path, i: nat)
    requires i < |p| && base.Node? && patch.Node?
    requires forall j :: 0 <= j <= i ==> At(base, p[..j]).Node? && At(patch, p[..j]).Node?
    requires InPatch(patch, p[..i]) && p[i] !in Keys(At(patch, p[..i]))
    ensures At(Merged(base, patch), p) == At(base, p)
    decreases i
  {
    MergedGet(base, patch, p[0]);
    if i > 0 {
      assert p[..1] == [p[0]] && p[..i][1..] == p[1..][..i - 1];
      assert At(base, p[..1]) == At(Get(base, p[0]), []) && At(patch, p[..1]) == At(Get(patch, p[0]), []);
      forall j | 0 <= j <= i - 1 ensures At(Get(base, p[0]), p[1..][..j]).Node? && At(Get(patch, p[0]), p[1..][..j]).Node? {
        assert p[..j + 1][1..] == p[1..][..j];
      }
      RestIsKept(Get(base, p[0]), Get(patch, p[0]), p[1..], i - 1);
    }
  }

  /** Applying the same patch twice is applying it once. */
  lemma {:induction false} MergeIsIdempotent(base: Json, patch: Json)
    ensures Merged(Merged(base, patch), patch) == Merged(base, patch)
    decreases patch
  {
    if base.Node? && patch.Node? {
      var once := Merged(base, patch);
      forall k | k in Keys(patch) ensures MergedAt(once, patch, k) == MergedAt(base, patch, k) {
        MergedGet(base, patch, k);
        if patch.entries[k].Node? {
          if Get(base, k).Node? {
            MergeIsIdempotent(Get(base, k), patch.entries[k]);
          } else {
            MergeOntoItself(patch.entries[k]);
          }
        }
      }
      assert Merged(once, patch).entries == once.entries;
    } else if patch.Node? {
      MergeOntoItself(patch);
    }
  }

  lemma {:induction false} MergeOntoItself(j: Json)
    ensures Merged(j, j) == j
    decreases j
  {
    if j.Node? {
      forall k | k in j.entries ensures MergedAt(j, j, k) == j.entries[k] {
        if j.entries[k].Node? {
          MergeOntoItself(j.entries[k]);
        }
      }
      assert Merged(j, j).entries == j.entries;
    }
  }

  /** A merge changes nothing but what the patch names: every reported difference is a key path of the patch. */
  lemma {:induction false} MergeTouchesOnlyThePatch(base: Json, patch: Json, p: Path)
    requires base.Node? && patch.Node? && p in Diff(base, Merged(base, patch))
    ensures InPatch(patch, p)
    decreases |p|
  {
    var merged := Merged(base, patch);
    InDiff(base, merged, p);
    MergedGet(base, patch, p[0]);
    if p[0] !in Keys(patch) {
      NoDiffIffSame(Get(base, p[0]), Get(base, p[0]));
    } else if Get(patch, p[0]).Node? && Get(base, p[0]).Node? {
      MergeTouchesOnlyThePatch(Get(base, p[0]), Get(patch, p[0]), p[1..]);
    } else {
      LeafDiff(Get(base, p[0]), Get(patch, p[0]), p[1..]);
    }
  }

  // ---------------------------------------------------------------------------------------------
  // In place
  // ---------------------------------------------------------------------------------------------

  datatype Value = Scalar(json: Json) | Object(dict: Dict)

  class Dict {
    var entries: map<string, Value>
    ghost var repr: set<Dict>

    /** An acyclic dictionary: nested ones live strictly inside its footprint; they may be shared. */
    ghost predicate Valid()
      reads this, repr
      decreases repr
    {
      && this in repr
      && forall k :: k in entries ==>
           match entries[k]
           case Scalar(j) => !j.Node?
           case Object(d) => d in repr && d.repr < repr && this !in d.repr && d.Valid()
    }

    constructor (start: map<string, Value>, ghost footprint: set<Dict>)
      ensures entries == start && repr == footprint + {this}
    {
      entries, repr := start, footprint + {this};
    }

    /** The tree the dictionary stands for. */
    ghost function Tree(): (j: Json)
      requires Valid()
      reads this, repr
      ensures j.Node? && j.entries.Keys == entries.Keys
      decreases repr
    {
      Node(map k | k in entries :: match entries[k] case Scalar(j) => j case Object(d) => d.Tree())
    }
  }

  ghost predicate ValueOk(v: Value)
    reads if v.Object? then {v.dict} + v.dict.repr else {}
  {
    match v
    case Scalar(j) => !j.Node?
    case Object(d) => d.Valid()
  }

  ghost function TreeOf(v: Value): Json
    requires ValueOk(v)
    reads if v.Object? then {v.dict} + v.dict.repr else {}
  {
    match v
    case Scalar(j) => j
    case Object(d) => d.Tree()
  }

  /** A dictionary none of whose footprint was written stands for the same tree. */
  twostate lemma Untouched(d: Dict)
    requires old(d.Valid()) && forall o :: o in old(d.repr) ==> unchanged(o)
    ensures d.Valid() && d.repr == old(d.repr) && d.Tree() == old(d.Tree())
  {
  }

  /** `dict(d)`: a new dictionary with the same entries, sharing what is nested. */
  method Copied(d: Dict) returns (copy: Dict)
    requires d.Valid()
    ensures fresh(copy) && copy.Valid() && copy.entries == d.entries && copy.repr == d.repr - {d} + {copy}
    ensures copy.Tree() == d.Tree()
  {
    copy := new Dict(d.entries, d.repr - {d});
    assert copy.Tree().entries == d.Tree().entries;
  }

  /** The base with the keys in `done` already patched. */
  ghost function PartlyMerged(base: Json, patch: Json, done: set<string>): Json
    requires base.Node? && patch.Node? && done <= patch.entries.Keys
  {
    Node(map k | k in base.entries.Keys + done :: if k in done then MergedAt(base, patch, k) else base.entries[k])
  }

  lemma {:induction false} PartlyAtEnds(base: Json, patch: Json)
    requires base.Node? && patch.Node?
    ensures PartlyMerged(base, patch, {}) == base && PartlyMerged(base, patch, patch.entries.Keys) == Merged(base, patch)
  {
    assert PartlyMerged(base, patch, {}).entries == base.entries;
    assert PartlyMerged(base, patch, patch.entries.Keys).entries == Merged(base, patch).entries;
  }

  lemma {:induction false} OneMoreKey(base: Json, patch: Json, done: set<string>, k: string)
    requires base.Node? && patch.Node? && done <= patch.entries.Keys && k in patch.entries && k !in done
    ensures PartlyMerged(base, patch, done + {k}) == Node(PartlyMerged(base, patch, done).entries[k := MergedAt(base, patch, k)])
    ensures k in PartlyMerged(base, patch, done).entries <==> k in base.entries
    ensures k in base.entries ==> PartlyMerged(base, patch, done).entries[k] == base.entries[k]
  {
    assert PartlyMerged(base, patch, done + {k}).entries == PartlyMerged(base, patch, done).entries[k := MergedAt(base, patch, k)];
  }

  /**
   `_merge(base, patch)`: `base` becomes the merged tree. No other existing dictionary is written, so the nested
   dictionaries of the original, shared or not, keep their contents.
   */
  method MergeInto(base: Dict, patch: Dict)
    requires base.Valid() && patch.Valid() && base !in patch.repr
    modifies base
    ensures base.Valid() && fresh(base.repr - old(base.repr) - patch.repr) && old(base.repr) <= base.repr
    ensures base.Tree() == Merged(old(base.Tree()), patch.Tree())
    decreases patch.repr, 1
  {
    ghost var before, p, own := base.Tree(), patch.Tree(), base.repr;
    var todo := patch.entries.Keys;
    ghost var done: set<string> := {};
    PartlyAtEnds(before, p);
    hide *;
    while todo != {}
      invariant base.Valid() && patch.Valid() && base !in patch.repr && patch.Tree() == p
      invariant fresh(base.repr - own - patch.repr) && own <= base.repr
      invariant todo <= patch.entries.Keys && done == patch.entries.Keys - todo
      invariant base.Tree() == PartlyMerged(before, p, done)
      decreases todo
    {
      var k :| k in todo;
      label L:
      ghost var reached := base.repr;
      MergeKey(base, patch, k, before, done);
      Untouched@L(patch);
      MoreObjects(own, reached, base.repr, patch.repr);
      todo, done := todo - {k}, done + {k};
    }
    assert done == p.entries.Keys;
  }

  lemma {:induction false} MoreObjects(own: set<object>, reached: set<object>, now: set<object>, others: set<object>)
    ensures now - own - others <= (reached - own - others) + (now - reached - others)
  {
  }

  /** One turn of the loop: the patch's value for `k` is stored, or merged into a copy of what is there. */
  method MergeKey(base: Dict, patch: Dict, k: string, ghost before: Json, ghost done: set<string>)
    requires base.Valid() && patch.Valid() && base !in patch.repr
    requires before.Node? && done <= patch.entries.Keys && k in patch.entries && k !in done
    requires base.Tree() == PartlyMerged(before, patch.Tree(), done)
    modifies base
    ensures base.Valid() && fresh(base.repr - old(base.repr) - patch.repr) && old(base.repr) <= base.repr
    ensures base.Tree() == PartlyMerged(before, old(patch.Tree()), done + {k})
    decreases patch.repr, 0
  {
    OneMoreKey(before, patch.Tree(), done, k);
    MergedAtSame(before, base.Tree(), patch.Tree(), k);
    hide PartlyMerged, MergedAt;
    var v := MergedValue(base, patch, k);
    Store(base, k, v);
  }

  lemma {:induction false} MergedAtSame(a: Json, b: Json, patch: Json, k: string)
    requires a.Node? && b.Node? && patch.Node? && k in patch.entries
    requires (k in a.entries <==> k in b.entries) && (k in a.entries ==> a.entries[k] == b.entries[k])
    ensures MergedAt(a, patch, k) == MergedAt(b, patch, k)
  {
    hide Merged;
  }

  /** What the key is to hold: the patch's value, or the merge of the two objects. */
  method MergedValue(base: Dict, patch: Dict, k: string) returns (v: Value)
    requires base.Valid() && patch.Valid() && base !in patch.repr && k in patch.entries
    ensures ValueOk(v) && (v.Object? ==> base !in v.dict.repr && fresh(v.dict.repr - base.repr - patch.repr))
    ensures TreeOf(v) == MergedAt(base.Tree(), patch.Tree(), k)
    ensures base.Valid() && base.Tree() == old(base.Tree()) && base.repr == old(base.repr)
    decreases patch.repr, 0, 1
  {
    v := patch.entries[k];
    assert ValueOk(v) && TreeOf(v) == patch.Tree().entries[k];
    if v.Object? && k in base.entries && base.entries[k].Object? {
      v := MergedCopy(base, k, base.entries[k].dict, patch, v.dict);
    }
  }

  /** `base[k] = v`: the tree changes at that key and nowhere else. */
  method Store(base: Dict, k: string, v: Value)
    requires base.Valid() && ValueOk(v) && (v.Object? ==> base !in v.dict.repr)
    modifies base
    ensures base.Valid() && base.repr == old(base.repr) + (if v.Object? then v.dict.repr else {})
    ensures base.Tree() == Node(old(base.Tree()).entries[k := old(TreeOf(v))])
  {
    ghost var tree, value := base.Tree(), TreeOf(v);
    ghost var values := base.entries;
    base.entries := base.entries[k := v];
    if v.Object? {
      base.repr := base.repr + v.dict.repr;
      Untouched(v.dict);
    }
    forall j | j in values && values[j].Object?
      ensures values[j].dict.Valid() && values[j].dict.repr == old(values[j].dict.repr)
      ensures values[j].dict.Tree() == old(values[j].dict.Tree())
    {
      Untouched(values[j].dict);
    }
    assert base.Tree().entries == tree.entries[k := value];
  }

  /** Copy the nested dictionary, then merge into the copy. */
  method MergedCopy(base: Dict, k: string, nested: Dict, patch: Dict, inner: Dict) returns (v: Value)
    requires base.Valid() && k in base.entries && base.entries[k] == Object(nested)
    requires patch.Valid() && base !in patch.repr && inner in patch.repr && inner.repr < patch.repr && inner.Valid()
    ensures v.Object? && ValueOk(v) && base !in v.dict.repr && fresh(v.dict.repr - base.repr - patch.repr)
    ensures TreeOf(v) == Merged(nested.Tree(), inner.Tree())
    ensures base.Valid() && base.Tree() == old(base.Tree()) && base.repr == old(base.repr)
    decreases patch.repr, 0, 0
  {
    var copy := Copied(nested);
    label L:
    MergeInto(copy, inner);
    v := Object(copy);
  }

  /** The agent's proposal, `_merge(dict(original), patch)`: nothing that existed before is written. */
  method Proposed(original: Dict, patch: Dict) returns (merged: Dict)
    requires original.Valid() && patch.Valid()
    ensures fresh(merged) && merged.Valid() && merged.Tree() == Merged(original.Tree(), patch.Tree())
    ensures original.Valid() && original.Tree() == old(original.Tree())
    ensures patch.Valid() && patch.Tree() == old(patch.Tree())
  {
    merged := Copied(original);
    MergeInto(merged, patch);
  }
}
