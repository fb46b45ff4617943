/**
 JSON-like configuration trees, the structural diff that decides what needs a second pair of eyes, and the
 dotted paths it reports. Lists and scalars are leaves.
 */
module ConfigTree {
  import opened Base

  datatype Json = Null | Leaf(text: string) | Node(entries: map<string, Json>)

  /** A position in a tree: the keys from the root. */
  type Path = seq<string>

  const SENSITIVE_KEYS := {"url", "base_url", "allowed_hosts", "extra_headers", "rss_url", "download_url", "sparql_url"}

  /** `dict.get`: a missing key reads as None. */
  function Get(j: Json, k: string): (r: Json)
    ensures j.Node? && r.Node? ==> r < j
  {
    if j.Node? && k in j.entries then j.entries[k] else Null
  }

  function Keys(j: Json): set<string> { if j.Node? then j.entries.Keys else {} }

  /** The value at a position; None below anything that is not an object. */
  function At(j: Json, p: Path): Json
    decreases |p|
  {
    if p == [] then j else if j.Node? then At(Get(j, p[0]), p[1..]) else Null
  }

  // ---------------------------------------------------------------------------------------------
  // Sorted keys
  // ---------------------------------------------------------------------------------------------

  predicate Leq(a: string, b: string) {
    a == [] || (b != [] && (a[0] < b[0] || (a[0] == b[0] && Leq(a[1..], b[1..]))))
  }

  lemma {:induction false} LeqTotal(a: string, b: string)
    ensures Leq(a, b) || Leq(b, a)
  {
    if a != [] && b != [] && a[0] == b[0] {
      LeqTotal(a[1..], b[1..]);
    }
  }

  lemma {:induction false} LeqTransitive(a: string, b: string, c: string)
    requires Leq(a, b) && Leq(b, c)
    ensures Leq(a, c)
  {
    if a != [] && a[0] == b[0] && b[0] == c[0] {
      LeqTransitive(a[1..], b[1..], c[1..]);
    }
  }

  lemma {:induction false} LeqReflexive(a: string)
    ensures Leq(a, a)
  {
    if a != [] {
      LeqReflexive(a[1..]);
    }
  }

  predicate IsLeast(k: string, s: set<string>) {
    k in s && forall x :: x in s ==> Leq(k, x)
  }

  lemma {:induction false} LeastExists(s: set<string>)
    requires s != {}
    ensures exists k :: IsLeast(k, s)
    decreases |s|
  {
    var x :| x in s;
    LeqReflexive(x);
    if s == {x} {
      assert IsLeast(x, s);
    } else {
      var rest := s - {x};
      LeastExists(rest);
      var k :| IsLeast(k, rest);
      LeqTotal(k, x);
      if Leq(k, x) {
        assert IsLeast(k, s);
      } else {
        forall y | y in s ensures Leq(x, y) {
          if y != x {
            LeqTransitive(x, k, y);
          }
        }
        assert IsLeast(x, s);
      }
    }
  }

  lemma {:induction false} LeqAntisymmetric(a: string, b: string)
    requires Leq(a, b) && Leq(b, a)
    ensures a == b
  {
    if a != [] {
      LeqAntisymmetric(a[1..], b[1..]);
      assert a == [a[0]] + a[1..] && b == [b[0]] + b[1..];
    }
  }

  lemma {:induction false} LeastIsUnique(s: set<string>)
    ensures forall k, l :: IsLeast(k, s) && IsLeast(l, s) ==> k == l
  {
    forall k, l | IsLeast(k, s) && IsLeast(l, s) ensures k == l {
      LeqAntisymmetric(k, l);
    }
  }

  function Least(s: set<string>): (k: string)
    requires s != {}
    ensures IsLeast(k, s)
  {
    LeastExists(s);
    LeastIsUnique(s);
    var k :| IsLeast(k, s);
    k
  }

  /** `sorted(keys)`. */
  function Sorted(s: set<string>): (ks: seq<string>)
    ensures forall k :: k in ks <==> k in s
    ensures forall i, j :: 0 <= i < j < |ks| ==> ks[i] != ks[j] && Leq(ks[i], ks[j])
    decreases |s|
  {
    if s == {} then [] else [Least(s)] + Sorted(s - {Least(s)})
  }

  // ---------------------------------------------------------------------------------------------
  // The diff, on positions
  // ---------------------------------------------------------------------------------------------

  /** The positions at which two trees differ, topmost only, in sorted order. */
  function Diff(old': Json, new': Json): seq<Path>
    decreases old', 1, 0
  {
    if old'.Node? && new'.Node? then DiffKeys(old', new', Sorted(Keys(old') + Keys(new')))
    else if old' == new' then []
    else [[]]
  }

  function DiffKeys(old': Json, new': Json, ks: seq<string>): seq<Path>
    requires old'.Node? && new'.Node?
    decreases old', 0, |ks|
  {
    if ks == [] then [] else Under(ks[0], DiffBelow(old', new', ks[0])) + DiffKeys(old', new', ks[1..])
  }

  function DiffBelow(old': Json, new': Json, k: string): seq<Path>
    requires old'.Node?
    decreases old', 0, 0
  {
    if Get(old', k).Node? then Diff(Get(old', k), Get(new', k))
    else if Get(old', k) == Get(new', k) then [] else [[]]
  }

  function Under(k: string, ps: seq<Path>): (r: seq<Path>)
    ensures |r| == |ps| && forall i :: 0 <= i < |ps| ==> r[i] == [k] + ps[i]
  {
    seq(|ps|, i requires 0 <= i < |ps| => [k] + ps[i])
  }

  lemma {:induction false} BelowIsDiff(old': Json, new': Json, k: string)
    requires old'.Node?
    ensures DiffBelow(old', new', k) == Diff(Get(old', k), Get(new', k))
  {
  }

  /** Exactly the differences below each key, under that key. */
  lemma {:induction false} InDiffKeys(old': Json, new': Json, ks: seq<string>, p: Path)
    requires old'.Node? && new'.Node?
    ensures p in DiffKeys(old', new', ks) <==> p != [] && p[0] in ks && p[1..] in Diff(Get(old', p[0]), Get(new', p[0]))
    decreases |ks|
  {
    hide Diff, DiffBelow, Get;
    if ks != [] {
      var head := Under(ks[0], DiffBelow(old', new', ks[0]));
      InDiffKeys(old', new', ks[1..], p);
      BelowIsDiff(old', new', ks[0]);
      if p in head {
        var i :| 0 <= i < |head| && head[i] == p;
        assert p[1..] == DiffBelow(old', new', ks[0])[i];
      }
      if p != [] && p[0] == ks[0] && p[1..] in DiffBelow(old', new', ks[0]) {
        var i :| 0 <= i < |head| && DiffBelow(old', new', ks[0])[i] == p[1..];
        assert head[i] == [ks[0]] + p[1..] == p;
      }
    }
  }

  lemma {:induction false} InDiff(old': Json, new': Json, p: Path)
    requires old'.Node? && new'.Node?
    ensures p in Diff(old', new') <==>
              p != [] && p[0] in Keys(old') + Keys(new') && p[1..] in Diff(Get(old', p[0]), Get(new', p[0]))
  {
    InDiffKeys(old', new', Sorted(Keys(old') + Keys(new')), p);
  }

  /** Where one of the two is not an object, only the position itself can be reported. */
  lemma {:induction false} LeafDiff(old': Json, new': Json, p: Path)
    requires !(old'.Node? && new'.Node?) && p in Diff(old', new')
    ensures p == [] && old' != new'
  {
  }

  /** At every reported position the two trees differ, and not merely further down. */
  lemma {:induction false} ReportedDiffers(old': Json, new': Json, p: Path)
    requires p in Diff(old', new')
    ensures At(old', p) != At(new', p) && !(At(old', p).Node? && At(new', p).Node?)
    decreases |p|
  {
    hide Diff;
    if !(old'.Node? && new'.Node?) {
      LeafDiff(old', new', p);
    } else {
      InDiff(old', new', p);
      ReportedDiffers(Get(old', p[0]), Get(new', p[0]), p[1..]);
    }
  }

  /** No reported position lies above another. */
  lemma {:induction false} ReportedApart(old': Json, new': Json, p: Path, q: Path)
    requires p in Diff(old', new') && q in Diff(old', new') && p <= q
    ensures p == q
    decreases |p|
  {
    hide Diff;
    if !(old'.Node? && new'.Node?) {
      LeafDiff(old', new', p);
      LeafDiff(old', new', q);
    } else {
      InDiff(old', new', p);
      InDiff(old', new', q);
      assert p[1..] <= q[1..];
      ReportedApart(Get(old', p[0]), Get(new', p[0]), p[1..], q[1..]);
      assert p == [p[0]] + p[1..] && q == [q[0]] + q[1..];
    }
  }

  /** Any position where the trees differ, other than between two objects, lies at or below a reported one. */
  lemma {:induction false} DifferenceIsReported(old': Json, new': Json, q: Path)
    requires At(old', q) != At(new', q) && !(At(old', q).Node? && At(new', q).Node?)
    ensures exists p :: p in Diff(old', new') && p <= q
    decreases |q|
  {
    if old'.Node? && new'.Node? {
      DifferenceIsReported(Get(old', q[0]), Get(new', q[0]), q[1..]);
      var p :| p in Diff(Get(old', q[0]), Get(new', q[0])) && p <= q[1..];
      var whole := [q[0]] + p;
      assert whole[1..] == p && whole <= q;
      InDiff(old', new', whole);
    } else {
      assert [] in Diff(old', new') && [] <= q;
    }
  }

  // ---------------------------------------------------------------------------------------------
  // When nothing is reported
  // ---------------------------------------------------------------------------------------------

  /** The tree without its None-valued keys. */
  function Normal(j: Json): Json {
    match j
    case Node(e) => Node(map k | k in e && e[k] != Null :: Normal(e[k]))
    case _ => j
  }

  lemma {:induction false} NormalGet(j: Json, k: string)
    requires j.Node?
    ensures Normal(j).Node? && Get(Normal(j), k) == Normal(Get(j, k))
    ensures k in Normal(j).entries <==> Get(j, k) != Null
  {
  }

  lemma {:induction false} SameNormal(a: Json, b: Json)
    requires a.Node? && b.Node?
    ensures Normal(a) == Normal(b) <==> forall k :: k in Keys(a) + Keys(b) ==> Normal(Get(a, k)) == Normal(Get(b, k))
  {
    forall k ensures Get(Normal(a), k) == Normal(Get(a, k)) && Get(Normal(b), k) == Normal(Get(b, k)) {
      NormalGet(a, k);
      NormalGet(b, k);
    }
    if forall k :: k in Keys(a) + Keys(b) ==> Normal(Get(a, k)) == Normal(Get(b, k)) {
      forall k ensures k in Normal(a).entries <==> k in Normal(b).entries {
        NormalGet(a, k);
        NormalGet(b, k);
      }
      forall k | k in Normal(a).entries ensures Normal(a).entries[k] == Normal(b).entries[k] {
        NormalGet(a, k);
        NormalGet(b, k);
        assert Get(Normal(a), k) == Normal(a).entries[k] && Get(Normal(b), k) == Normal(b).entries[k];
      }
      assert Normal(a).entries == Normal(b).entries;
    }
  }

  /** The diff is empty exactly when the trees are equal up to keys that are None on one side and missing on the other. */
  lemma {:induction false} NoDiffIffSame(old': Json, new': Json)
    ensures Diff(old', new') == [] <==> Normal(old') == Normal(new')
    decreases old'
  {
    if old'.Node? && new'.Node? {
      SameNormal(old', new');
      forall k | k in Keys(old') + Keys(new')
        ensures Diff(Get(old', k), Get(new', k)) == [] <==> Normal(Get(old', k)) == Normal(Get(new', k))
      {
        if Get(old', k).Node? {
          NoDiffIffSame(Get(old', k), Get(new', k));
        }
      }
      if Diff(old', new') != [] {
        var p := Diff(old', new')[0];
        InDiff(old', new', p);
      }
      forall k | k in Keys(old') + Keys(new') && Diff(Get(old', k), Get(new', k)) != [] ensures Diff(old', new') != [] {
        var p := Diff(Get(old', k), Get(new', k))[0];
        assert ([k] + p)[1..] == p;
        InDiff(old', new', [k] + p);
      }
    }
  }

  // ---------------------------------------------------------------------------------------------
  // Dotted paths
  // ---------------------------------------------------------------------------------------------

  function Extend(prefix: string, k: string): string {
    if prefix != "" then prefix + "." + k else k
  }

  function OrRoot(prefix: string): string { if prefix != "" then prefix else "<root>" }

  /** `diff_paths` itself: the recursion carries the dotted prefix along. */
  function DiffPaths(old': Json, new': Json, prefix: string): seq<string>
    decreases old', 1, 0
  {
    if old'.Node? && new'.Node? then DiffPathsOf(old', new', Sorted(Keys(old') + Keys(new')), prefix)
    else if old' == new' then []
    else [OrRoot(prefix)]
  }

  function DiffPathsOf(old': Json, new': Json, ks: seq<string>, prefix: string): seq<string>
    requires old'.Node? && new'.Node?
    decreases old', 0, |ks|
  {
    if ks == [] then []
    else
      (if Get(old', ks[0]).Node? then DiffPaths(Get(old', ks[0]), Get(new', ks[0]), Extend(prefix, ks[0]))
       else if Get(old', ks[0]) == Get(new', ks[0]) then []
       else [OrRoot(Extend(prefix, ks[0]))])
      + DiffPathsOf(old', new', ks[1..], prefix)
  }

  /** How a position is written below a prefix. */
  function Render(prefix: string, p: Path): string
    decreases |p|
  {
    if p == [] then OrRoot(prefix) else Render(Extend(prefix, p[0]), p[1..])
  }

  function Rendered(prefix: string, ps: seq<Path>): (r: seq<string>)
    ensures |r| == |ps| && forall i :: 0 <= i < |ps| ==> r[i] == Render(prefix, ps[i])
  {
    seq(|ps|, i requires 0 <= i < |ps| => Render(prefix, ps[i]))
  }

  /** The dotted paths are the differing positions, written out, in the same order. */
  lemma {:induction false} DiffPathsAreRendered(old': Json, new': Json, prefix: string)
    ensures DiffPaths(old', new', prefix) == Rendered(prefix, Diff(old', new'))
    decreases old', 1, 0
  {
    if old'.Node? && new'.Node? {
      DiffKeysAreRendered(old', new', Sorted(Keys(old') + Keys(new')), prefix);
    }
  }

  lemma {:induction false} DiffKeysAreRendered(old': Json, new': Json, ks: seq<string>, prefix: string)
    requires old'.Node? && new'.Node?
    ensures DiffPathsOf(old', new', ks, prefix) == Rendered(prefix, DiffKeys(old', new', ks))
    decreases old', 0, |ks|
  {
    if ks != [] {
      var k := ks[0];
      DiffKeysAreRendered(old', new', ks[1..], prefix);
      if Get(old', k).Node? {
        DiffPathsAreRendered(Get(old', k), Get(new', k), Extend(prefix, k));
      }
      var below := DiffBelow(old', new', k);
      assert Rendered(prefix, Under(k, below)) == Rendered(Extend(prefix, k), below);
    }
  }

  predicate Plain(k: string) { k != "" && '.' !in k }

  /** Every key at every level is non-empty and free of dots. */
  predicate PlainTree(j: Json) {
    j.Node? ==> forall k :: k in j.entries ==> Plain(k) && PlainTree(j.entries[k])
  }

  function Join(p: Path): string
    requires p != []
  {
    if |p| == 1 then p[0] else p[0] + "." + Join(p[1..])
  }

  /** `str.split(".")`. */
  function Split(s: string): (r: seq<string>)
    ensures r != []
  {
    if s == "" then [""]
    else
      var r := Split(s[1..]);
      if s[0] == '.' then [""] + r else [[s[0]] + r[0]] + r[1..]
  }

  lemma {:induction false} SplitAtDot(k: string, rest: string)
    requires '.' !in k
    ensures Split(k + "." + rest) == [k] + Split(rest)
  {
    if k == "" {
      assert k + "." + rest == "." + rest;
    } else {
      SplitAtDot(k[1..], rest);
      assert (k + "." + rest)[1..] == k[1..] + "." + rest;
      assert k[0] in k && [k[0]] + k[1..] == k;
    }
  }

  lemma {:induction false} SplitPlain(k: string)
    requires '.' !in k
    ensures Split(k) == [k]
  {
    if k != "" {
      SplitPlain(k[1..]);
      assert k[0] in k && [k[0]] + k[1..] == k;
    }
  }

  lemma {:induction false} SplitJoin(p: Path)
    requires p != [] && forall i :: 0 <= i < |p| ==> '.' !in p[i]
    ensures Split(Join(p)) == p
    decreases |p|
  {
    if |p| == 1 {
      SplitPlain(p[0]);
    } else {
      SplitJoin(p[1..]);
      SplitAtDot(p[0], Join(p[1..]));
    }
  }

  lemma {:induction false} RenderIsJoin(prefix: string, p: Path)
    requires p != [] && (prefix != "" || p[0] != "")
    ensures Render(prefix, p) == if prefix == "" then Join(p) else prefix + "." + Join(p)
    decreases |p|
  {
    if |p| > 1 {
      RenderIsJoin(Extend(prefix, p[0]), p[1..]);
      assert prefix + "." + p[0] + "." + Join(p[1..]) == prefix + "." + (p[0] + "." + Join(p[1..]));
    }
  }

  lemma {:induction false} PlainGet(j: Json, k: string)
    requires PlainTree(j)
    ensures PlainTree(Get(j, k)) && (k in Keys(j) ==> Plain(k))
  {
  }

  /** Reported positions use the trees' own keys. */
  lemma {:induction false} ReportedIsPlain(old': Json, new': Json, p: Path)
    requires p in Diff(old', new') && PlainTree(old') && PlainTree(new')
    ensures forall i :: 0 <= i < |p| ==> Plain(p[i])
    decreases |p|
  {
    if old'.Node? && new'.Node? {
      InDiff(old', new', p);
      PlainGet(old', p[0]);
      PlainGet(new', p[0]);
      ReportedIsPlain(Get(old', p[0]), Get(new', p[0]), p[1..]);
    }
  }

  /** `_get_path`: walk down the parts of a dotted path; None as soon as an object is missing. */
  method GetPath(d: Json, path: string) returns (r: Json)
    ensures r == At(d, Split(path))
  {
    var parts := Split(path);
    r := d;
    for i := 0 to |parts|
      invariant At(r, parts[i..]) == At(d, parts)
    {
      if !r.Node? {
        return Null;
      }
      assert parts[i..][1..] == parts[i + 1..];
      r := Get(r, parts[i]);
    }
  }

  /** With dot-free keys every reported path reads back two different values. */
  lemma {:induction false} ReportedPathDiffers(old': Json, new': Json, s: string)
    requires old'.Node? && new'.Node? && PlainTree(old') && PlainTree(new') && s in DiffPaths(old', new', "")
    ensures At(old', Split(s)) != At(new', Split(s))
    ensures Split(s) in Diff(old', new')
  {
    DiffPathsAreRendered(old', new', "");
    var i :| 0 <= i < |Diff(old', new')| && s == Render("", Diff(old', new')[i]);
    var p := Diff(old', new')[i];
    InDiff(old', new', p);
    ReportedIsPlain(old', new', p);
    RenderIsJoin("", p);
    SplitJoin(p);
    ReportedDiffers(old', new', p);
  }

  /** With dot-free keys the dotted list says exactly what the list of positions says. */
  lemma {:induction false} PathsAreComplete(old': Json, new': Json, q: Path)
    requires old'.Node? && new'.Node? && PlainTree(old') && PlainTree(new')
    requires At(old', q) != At(new', q) && !(At(old', q).Node? && At(new', q).Node?)
    ensures exists s :: s in DiffPaths(old', new', "") && Split(s) <= q
  {
    DifferenceIsReported(old', new', q);
    var p :| p in Diff(old', new') && p <= q;
    InDiff(old', new', p);
    ReportedIsPlain(old', new', p);
    RenderIsJoin("", p);
    SplitJoin(p);
    DiffPathsAreRendered(old', new', "");
    var i :| 0 <= i < |Diff(old', new')| && Diff(old', new')[i] == p;
    assert DiffPaths(old', new', "")[i] == Join(p);
  }

  // ---------------------------------------------------------------------------------------------
  // When a path reads back
  // ---------------------------------------------------------------------------------------------

  /** Splitting leaves no dot. */
  lemma {:induction false} SplitPartsPlain(s: string)
    ensures forall i :: 0 <= i < |Split(s)| ==> '.' !in Split(s)[i]
  {
    if s != "" {
      SplitPartsPlain(s[1..]);
      var r := Split(s[1..]);
      forall i | 0 <= i < |Split(s)| ensures '.' !in Split(s)[i] {
        if s[0] == '.' {
          assert Split(s)[i] == if i == 0 then "" else r[i - 1];
        } else {
          assert Split(s)[i] == if i == 0 then [s[0]] + r[0] else r[i];
        }
      }
    }
  }

  /** Empty keys at the start are not written, so such a position comes back shorter, or as the name of the root. */
  lemma {:induction false} LeadingEmptyIsLost(p: Path)
    requires p != [] && forall i :: 0 <= i < |p| ==> '.' !in p[i]
    ensures |Split(Render("", p))| <= |p|
    ensures p[0] == "" ==> |Split(Render("", p))| < |p| || Split(Render("", p)) == ["<root>"]
    decreases |p|
  {
    if p[0] != "" {
      RenderIsJoin("", p);
      SplitJoin(p);
    } else if |p| == 1 {
      SplitPlain("<root>");
    } else {
      LeadingEmptyIsLost(p[1..]);
    }
  }

  /**
   A written position reads back as itself exactly when it is not the root, does not start with an empty key, and none
   of its keys has a dot in it.
   */
  lemma {:induction false} ReadsBackIff(p: Path)
    ensures Split(Render("", p)) == p <==> p != [] && p[0] != "" && forall i :: 0 <= i < |p| ==> '.' !in p[i]
  {
    SplitPartsPlain(Render("", p));
    if p != [] && forall i :: 0 <= i < |p| ==> '.' !in p[i] {
      LeadingEmptyIsLost(p);
      if p[0] != "" {
        RenderIsJoin("", p);
        SplitJoin(p);
      }
    }
    hide Split, Render;
  }

  /**
   A real case: the fill-rate floors are keyed by type and field, as in "PERSON.dob". A changed floor is reported,
   but its path names nothing on either side, as no floor is keyed by a bare type.
   */
  lemma {:induction false} DottedFloorIsNotFound(old': Json, new': Json, et: string, field: string)
    requires old'.Node? && new'.Node? && Plain(et) && Plain(field)
    requires ["validation", "fill_floors", et + "." + field] in Diff(old', new')
    requires At(old', ["validation", "fill_floors", et]) == Null == At(new', ["validation", "fill_floors", et])
    ensures var s := Render("", ["validation", "fill_floors", et + "." + field]);
            && s in DiffPaths(old', new', "")
            && At(old', Split(s)) == Null == At(new', Split(s))
  {
    var above, q := ["validation", "fill_floors", et], ["validation", "fill_floors", et, field];
    var p := ["validation", "fill_floors", et + "." + field];
    assert q == above + [field];
    FloorSplits(et, field);
    AtBelowNull(old', above, field);
    AtBelowNull(new', above, field);
    hide Diff, DiffPaths, At, Split, Render, Join;
    DiffPathsAreRendered(old', new', "");
    var i :| 0 <= i < |Diff(old', new')| && Diff(old', new')[i] == p;
    assert DiffPaths(old', new', "")[i] == Render("", p);
  }

  lemma {:induction false} JoinCons(k: string, p: Path)
    requires p != []
    ensures Join([k] + p) == k + "." + Join(p)
  {
    assert ([k] + p)[1..] == p;
  }

  lemma {:induction false} FloorSplits(et: string, field: string)
    requires Plain(et) && Plain(field)
    ensures Split(Render("", ["validation", "fill_floors", et + "." + field])) == ["validation", "fill_floors", et, field]
  {
    var p, q := ["validation", "fill_floors", et + "." + field], ["validation", "fill_floors", et, field];
    assert |et| < |et + "." + field|;
    RenderIsJoin("", p);
    SplitJoin(q);
    hide Split, Render;
    assert p == ["validation"] + (["fill_floors"] + [et + "." + field]);
    assert q == ["validation"] + (["fill_floors"] + ([et] + [field]));
    JoinCons("validation", ["fill_floors"] + [et + "." + field]);
    JoinCons("fill_floors", [et + "." + field]);
    JoinCons("validation", ["fill_floors"] + ([et] + [field]));
    JoinCons("fill_floors", [et] + [field]);
    JoinCons(et, [field]);
    assert Join([field]) == field && Join([et + "." + field]) == et + "." + field;
    hide Join;
  }

  /** Nothing lies below a missing value. */
  lemma {:induction false} AtBelowNull(j: Json, p: Path, k: string)
    requires At(j, p) == Null
    ensures At(j, p + [k]) == Null
    decreases |p|
  {
    if p != [] && j.Node? {
      AtBelowNull(Get(j, p[0]), p[1..], k);
      assert (p + [k])[1..] == p[1..] + [k];
    }
  }

  // ---------------------------------------------------------------------------------------------
  // Sensitive paths
  // ---------------------------------------------------------------------------------------------

  predicate IsSensitive(s: string) { exists i :: 0 <= i < |Split(s)| && Split(s)[i] in SENSITIVE_KEYS }

  /** Above a reported position both trees are objects. */
  lemma {:induction false} ObjectsAbove(old': Json, new': Json, p: Path, j: nat)
    requires p in Diff(old', new') && j < |p|
    ensures At(old', p[..j]).Node? && At(new', p[..j]).Node?
    decreases |p|
  {
    hide Diff;
    if !(old'.Node? && new'.Node?) {
      LeafDiff(old', new', p);
    } else if 0 < j {
      InDiff(old', new', p);
      ObjectsAbove(Get(old', p[0]), Get(new', p[0]), p[1..], j - 1);
      assert p[..j][1..] == p[1..][..j - 1];
    }
  }

  /** Both sides are objects at every position above `q[i]`. */
  ghost predicate ObjectsDownTo(old': Json, new': Json, q: Path, i: nat)
    requires i < |q|
  {
    forall j :: 0 <= j <= i ==> At(old', q[..j]).Node? && At(new', q[..j]).Node?
  }

  /**
   A difference below key `q[i]` is reported under that key exactly when both configurations have objects all the
   way down to it; otherwise the report stops higher up.
   */
  lemma {:induction false} ReportReachesIff(old': Json, new': Json, q: Path, p: Path, i: nat)
    requires p in Diff(old', new') && p <= q && i < |q|
    ensures i < |p| <==> ObjectsDownTo(old', new', q, i)
  {
    if i < |p| {
      forall j | 0 <= j <= i ensures At(old', q[..j]).Node? && At(new', q[..j]).Node? {
        ObjectsAbove(old', new', p, j);
        assert q[..j] == p[..j];
      }
    } else {
      ReportedDiffers(old', new', p);
      assert q[..|p|] == p;
    }
  }

  predicate AnySensitive(paths: seq<string>) { exists i :: 0 <= i < |paths| && IsSensitive(paths[i]) }

  /** A value differs below the sensitive key `q[i]`, which both trees reach through objects. */
  ghost predicate SensitiveAt(old': Json, new': Json, q: Path, i: nat) {
    && i < |q| && IsSensitive(q[i]) && At(old', q) != At(new', q) && !(At(old', q).Node? && At(new', q).Node?)
    && ObjectsDownTo(old', new', q, i)
  }

  ghost predicate SensitiveDiffers(old': Json, new': Json) {
    exists q, i :: SensitiveAt(old', new', q, i)
  }

  lemma {:induction false} SplitCons(c: char, s: string)
    ensures Split([c] + s) == if c == '.' then [""] + Split(s) else [[c] + Split(s)[0]] + Split(s)[1..]
  {
    assert ([c] + s)[1..] == s;
  }

  lemma {:induction false} ConsConcat(c: char, x: seq<string>, y: seq<string>)
    requires x != []
    ensures [""] + (x + y) == ([""] + x) + y
    ensures [[c] + (x + y)[0]] + (x + y)[1..] == ([[c] + x[0]] + x[1..]) + y
  {
    assert (x + y)[1..] == x[1..] + y;
  }

  lemma {:induction false} SplitConcat(a: string, b: string)
    ensures Split(a + "." + b) == Split(a) + Split(b)
  {
    if a == "" {
      SplitCons('.', b);
      assert a + "." + b == ['.'] + b;
    } else {
      var c, rest := a[0], a[1..];
      assert a == [c] + rest && a + "." + b == [c] + (rest + "." + b);
      SplitConcat(rest, b);
      hide Split;
      SplitCons(c, rest + "." + b);
      SplitCons(c, rest);
      ConsConcat(c, Split(rest), Split(b));
    }
  }

  lemma {:induction false} DottedSensitive(a: string, b: string)
    ensures IsSensitive(a + "." + b) <==> IsSensitive(a) || IsSensitive(b)
  {
    SplitConcat(a, b);
    hide Split;
    var x, y := Split(a), Split(b);
    forall i | 0 <= i < |x| ensures (x + y)[i] == x[i] {
    }
    forall i | 0 <= i < |y| ensures (x + y)[|x| + i] == y[i] {
    }
  }

  lemma {:induction false} PlainSensitive(k: string)
    requires '.' !in k
    ensures IsSensitive(k) <==> k in {"url", "base_url", "allowed_hosts", "extra_headers", "rss_url", "download_url", "sparql_url"}
  {
    SplitPlain(k);
    assert Split(k)[0] == k;
    hide Split;
  }

  ghost predicate SensitivePath(p: Path) { exists i :: 0 <= i < |p| && IsSensitive(p[i]) }

  /** However a position is written, its text is sensitive exactly when the prefix or one of its keys is. */
  lemma {:induction false} RenderSensitive(prefix: string, p: Path)
    ensures IsSensitive(Render(prefix, p)) <==> IsSensitive(prefix) || SensitivePath(p)
    decreases |p|
  {
    PlainSensitive("");
    if p == [] {
      PlainSensitive("<root>");
    } else {
      DottedSensitive(prefix, p[0]);
      RenderSensitive(Extend(prefix, p[0]), p[1..]);
      hide IsSensitive, Render;
      assert SensitivePath(p) <==> IsSensitive(p[0]) || SensitivePath(p[1..]) by {
        SensitiveStep(p);
      }
    }
  }

  lemma {:induction false} SensitiveStep(p: Path)
    requires p != []
    ensures SensitivePath(p) <==> IsSensitive(p[0]) || SensitivePath(p[1..])
  {
    hide IsSensitive;
    if SensitivePath(p[1..]) {
      var i :| 0 <= i < |p| - 1 && IsSensitive(p[1..][i]);
      assert IsSensitive(p[i + 1]);
    }
    if i :| 0 <= i < |p| && IsSensitive(p[i]) && i != 0 {
      assert IsSensitive(p[1..][i - 1]);
    }
  }

  /** A change below a sensitive key is flagged for review when both configurations reach that key. */
  lemma {:induction false} SensitiveChangeIsFlagged(old': Json, new': Json, q: Path, i: nat)
    requires SensitiveAt(old', new', q, i)
    ensures AnySensitive(DiffPaths(old', new', ""))
  {
    hide IsSensitive, Diff, DiffPaths, Render, ObjectsDownTo;
    DifferenceIsReported(old', new', q);
    var p :| p in Diff(old', new') && p <= q;
    ReportReachesIff(old', new', q, p, i);
    assert p[i] == q[i];
    RenderSensitive("", p);
    DiffPathsAreRendered(old', new', "");
    var n :| 0 <= n < |Diff(old', new')| && Diff(old', new')[n] == p;
    assert DiffPaths(old', new', "")[n] == Render("", p);
  }

  /** A flagged path points at such a change. */
  lemma {:induction false} FlaggedIsSensitive(old': Json, new': Json, n: nat) returns (i: nat)
    requires n < |DiffPaths(old', new', "")| && IsSensitive(DiffPaths(old', new', "")[n])
    ensures n < |Diff(old', new')| && SensitiveAt(old', new', Diff(old', new')[n], i)
  {
    hide IsSensitive, Diff, DiffPaths, Render;
    DiffPathsAreRendered(old', new', "");
    var p := Diff(old', new')[n];
    i := SensitiveKeyOf(p);
    hide ObjectsDownTo, SensitivePath;
    ReportedDiffers(old', new', p);
    ReportReachesIff(old', new', p, p, i);
  }

  lemma {:induction false} SensitiveKeyOf(p: Path) returns (i: nat)
    requires IsSensitive(Render("", p))
    ensures i < |p| && IsSensitive(p[i])
  {
    PlainSensitive("");
    hide IsSensitive, Render;
    RenderSensitive("", p);
    i :| 0 <= i < |p| && IsSensitive(p[i]);
  }

  /**
   What the review gate sees, in terms of values, for all trees: it asks for review exactly when a value differs below
   a sensitive key that both configurations reach through objects.
   */
  lemma {:induction false} FlaggedIff(old': Json, new': Json)
    ensures AnySensitive(DiffPaths(old', new', "")) <==> SensitiveDiffers(old', new')
  {
    hide SensitiveAt, IsSensitive, DiffPaths, Diff;
    var paths := DiffPaths(old', new', "");
    if AnySensitive(paths) {
      var n :| 0 <= n < |paths| && IsSensitive(paths[n]);
      var i := FlaggedIsSensitive(old', new', n);
    }
    if q: Path, i: nat :| SensitiveAt(old', new', q, i) {
      SensitiveChangeIsFlagged(old', new', q, i);
    }
  }

  lemma {:induction false} AtOne(j: Json, q: Path)
    requires j.Node? && q != []
    ensures At(j, q[..1]) == Get(j, q[0])
  {
    assert q[..1][1..] == [];
  }

  lemma {:induction false} NotBelow(old': Json, new': Json, q: Path, i: nat)
    requires old'.Node? && i < |q| && ObjectsDownTo(old', new', q, i) && !Get(old', q[0]).Node?
    ensures i == 0
  {
    AtOne(old', q);
  }

  /** A whole object that appears where there was none is reported at its own key, whatever sensitive values it brings. */
  lemma {:induction false} NewObjectIsNotFlagged(old': Json, key: string, e: map<string, Json>)
    requires old'.Node? && Get(old', key) == Null && !IsSensitive(key)
    ensures !SensitiveDiffers(old', Node(old'.entries[key := Node(e)]))
  {
    var new' := Node(old'.entries[key := Node(e)]);
    hide IsSensitive;
    forall q: Path, i: nat | i < |q| && ObjectsDownTo(old', new', q, i) && IsSensitive(q[i]) ensures At(old', q) == At(new', q) {
      if q[0] == key {
        NotBelow(old', new', q, i);
      } else {
        assert Get(old', q[0]) == Get(new', q[0]);
      }
    }
  }
}
