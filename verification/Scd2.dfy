/**
 The slowly-changing-dimension table `record_version` of one source: every row is valid from one version
 sequence number up to, but not including, another. A publish closes the rows the new file no longer
 contains in the same form and opens a row for everything new or different.
 */
module Scd2 {
  import opened Base
  import opened Canonical

  datatype Row = Row(key: Key, doc: Doc, from: nat, to: Option<nat>)

  /** What `log` remembers of one publish: its sequence number, the staged map it made current, and the run. */
  datatype Publication = Publication(seqNo: nat, content: map<Key, Doc>, run: nat)

  predicate IsOpen(r: Row) { r.to.None? }

  predicate ValidAt(r: Row, q: nat) {
    r.from <= q && (r.to.None? || q < r.to.value)
  }

  /** Well-formed history up to sequence number `pub`: per key, an earlier row ends before a later one starts. */
  ghost predicate RowsOk(rows: seq<Row>, pub: nat) {
    && (forall i :: 0 <= i < |rows| ==>
          rows[i].from <= pub && (rows[i].to.Some? ==> rows[i].from < rows[i].to.value <= pub))
    && (forall i, j :: 0 <= i < j < |rows| && rows[i].key == rows[j].key ==>
          rows[i].to.Some? && rows[i].to.value <= rows[j].from)
  }

  /** The rows valid at `q` are exactly the entries of `m`. */
  ghost predicate ExactlyAt(rows: seq<Row>, q: nat, m: map<Key, Doc>) {
    && (forall i :: 0 <= i < |rows| && ValidAt(rows[i], q) ==> rows[i].key in m && m[rows[i].key] == rows[i].doc)
    && (forall k :: k in m ==> exists i :: 0 <= i < |rows| && rows[i].key == k && ValidAt(rows[i], q))
  }

  /** The open rows are exactly the entries of `m`. */
  ghost predicate OpenIs(rows: seq<Row>, m: map<Key, Doc>) {
    && (forall i :: 0 <= i < |rows| && IsOpen(rows[i]) ==> rows[i].key in m && m[rows[i].key] == rows[i].doc)
    && (forall k :: k in m ==> exists i :: 0 <= i < |rows| && rows[i].key == k && IsOpen(rows[i]))
  }

  /** The current list: `SELECT ... WHERE valid_to_seq IS NULL`. */
  function Open(rows: seq<Row>): map<Key, Doc> {
    if rows == [] then map[]
    else
      var m := Open(rows[..|rows| - 1]);
      var r := rows[|rows| - 1];
      if IsOpen(r) then m[r.key := r.doc] else m
  }

  function CloseRow(r: Row, staged: map<Key, Doc>, n: nat): Row {
    if IsOpen(r) && !(r.key in staged && staged[r.key] == r.doc) then r.(to := Some(n)) else r
  }

  function Close(rows: seq<Row>, staged: map<Key, Doc>, n: nat): (c: seq<Row>) {
    seq(|rows|, i requires 0 <= i < |rows| => CloseRow(rows[i], staged, n))
  }

  /** The rows inserted for ADD, CHANGE and RELIST, in staging order. */
  function Insert(open: map<Key, Doc>, recs: seq<Rec>, n: nat): seq<Row> {
    if recs == [] then []
    else
      var last := recs[|recs| - 1];
      Insert(open, recs[..|recs| - 1], n)
      + (if last.key in open && open[last.key] == last.doc then [] else [Row(last.key, last.doc, n, None)])
  }

  function PublishRows(rows: seq<Row>, recs: seq<Rec>, n: nat): seq<Row> {
    Close(rows, AsMap(recs), n) + Insert(Open(rows), recs, n)
  }

  /** The map of the last publication at or before `q`. */
  function ContentAt(log: seq<Publication>, q: nat): map<Key, Doc> {
    if log == [] then map[]
    else if log[|log| - 1].seqNo <= q then log[|log| - 1].content
    else ContentAt(log[..|log| - 1], q)
  }

  /** Time travel: the table answers "what was listed at q" for every q. */
  ghost predicate TimeTravel(rows: seq<Row>, log: seq<Publication>) {
    forall q: nat :: ExactlyAt(rows, q, ContentAt(log, q))
  }

  /** One more row, appended to a table whose open rows are `m`. */
  lemma {:induction false} OpenExtends(init: seq<Row>, r: Row, m: map<Key, Doc>)
    requires OpenIs(init, m) && (IsOpen(r) ==> r.key !in m)
    ensures OpenIs(init + [r], if IsOpen(r) then m[r.key := r.doc] else m)
  {
    var rows, m' := init + [r], if IsOpen(r) then m[r.key := r.doc] else m;
    forall i | 0 <= i < |rows| && IsOpen(rows[i]) ensures rows[i].key in m' && m'[rows[i].key] == rows[i].doc {
      if i < |init| {
        assert init[i] == rows[i];
      }
    }
    forall k | k in m' ensures exists i :: 0 <= i < |rows| && rows[i].key == k && IsOpen(rows[i]) {
      if k in m {
        var i :| 0 <= i < |init| && init[i].key == k && IsOpen(init[i]);
        assert rows[i] == init[i];
      } else {
        assert rows[|init|].key == k;
      }
    }
  }

  /** The last row's key is not open before it. */
  lemma {:induction false} LastIsNew(rows: seq<Row>, m: map<Key, Doc>, pub: nat)
    requires rows != [] && RowsOk(rows, pub) && OpenIs(rows[..|rows| - 1], m)
    ensures rows[|rows| - 1].key !in m
  {
    var init, last := rows[..|rows| - 1], rows[|rows| - 1];
    assert rows == init + [last];
    EarlierIsClosed(init, last, pub);
    hide RowsOk;
  }

  lemma {:induction false} EarlierIsClosed(init: seq<Row>, last: Row, pub: nat)
    requires RowsOk(init + [last], pub)
    ensures forall i :: 0 <= i < |init| && init[i].key == last.key ==> !IsOpen(init[i])
  {
    var rows := init + [last];
    forall i | 0 <= i < |init| && init[i].key == last.key ensures !IsOpen(init[i]) {
      assert rows[i] == init[i] && rows[|init|] == last;
    }
  }

  lemma {:induction false} PrefixRowsOk(rows: seq<Row>, pub: nat)
    requires rows != [] && RowsOk(rows, pub)
    ensures RowsOk(rows[..|rows| - 1], pub)
  {
  }

  lemma {:induction false} OpenSound(rows: seq<Row>, pub: nat)
    requires RowsOk(rows, pub)
    ensures OpenIs(rows, Open(rows))
  {
    if rows != [] {
      var init, r := rows[..|rows| - 1], rows[|rows| - 1];
      PrefixRowsOk(rows, pub);
      OpenSound(init, pub);
      LastIsNew(rows, Open(init), pub);
      OpenExtends(init, r, Open(init));
      assert rows == init + [r];
      hide OpenIs, RowsOk;
    }
  }

  lemma {:induction false} OpenUnique(rows: seq<Row>, m: map<Key, Doc>, pub: nat)
    requires RowsOk(rows, pub) && OpenIs(rows, m)
    ensures Open(rows) == m
  {
    OpenSound(rows, pub);
    assert forall k :: k in m ==> k in Open(rows) && Open(rows)[k] == m[k];
    assert forall k :: k in Open(rows) ==> k in m;
  }

  /** `Insert` opens one row at `n` for exactly the staged records that are not already open unchanged. */
  ghost predicate Fresh(out: seq<Row>, open: map<Key, Doc>, staged: map<Key, Doc>, n: nat) {
    && (forall i :: 0 <= i < |out| ==>
          && out[i].from == n && IsOpen(out[i]) && out[i].key in staged && staged[out[i].key] == out[i].doc
          && !(out[i].key in open && open[out[i].key] == out[i].doc))
    && (forall k :: k in staged && !(k in open && open[k] == staged[k]) ==>
          exists i :: 0 <= i < |out| && out[i].key == k)
    && (forall i, j :: 0 <= i < j < |out| ==> out[i].key != out[j].key)
  }

  lemma {:induction false} FreshExtends(out: seq<Row>, open: map<Key, Doc>, staged: map<Key, Doc>, n: nat, r: Rec)
    requires Fresh(out, open, staged, n) && r.key !in staged
    ensures r.key in open && open[r.key] == r.doc ==> Fresh(out, open, staged[r.key := r.doc], n)
    ensures !(r.key in open && open[r.key] == r.doc) ==>
              Fresh(out + [Row(r.key, r.doc, n, None)], open, staged[r.key := r.doc], n)
  {
    if !(r.key in open && open[r.key] == r.doc) {
      var out' := out + [Row(r.key, r.doc, n, None)];
      forall k | k in staged && !(k in open && open[k] == staged[k]) ensures exists i :: 0 <= i < |out'| && out'[i].key == k {
        var i :| 0 <= i < |out| && out[i].key == k;
        assert out'[i].key == k;
      }
      assert out'[|out|].key == r.key;
    }
  }

  lemma {:induction false} InsertSound(open: map<Key, Doc>, recs: seq<Rec>, n: nat)
    requires DistinctKeys(recs)
    ensures Fresh(Insert(open, recs, n), open, AsMap(recs), n)
  {
    if recs != [] {
      var init, last := recs[..|recs| - 1], recs[|recs| - 1];
      InsertSound(open, init, n);
      AsMapSound(init);
      forall i | 0 <= i < |init| ensures init[i].key != last.key {
        assert init[i] == recs[i];
      }
      FreshExtends(Insert(open, init, n), open, AsMap(init), n, last);
      assert Insert(open, init, n) + [] == Insert(open, init, n);
    }
  }

  /** The table after a publish, row by row: the old rows, some of them closed, then the fresh ones. */
  lemma {:induction false} PublishShape(rows: seq<Row>, recs: seq<Rec>, n: nat)
    requires DistinctKeys(recs)
    ensures var out, fresh' := PublishRows(rows, recs, n), Insert(Open(rows), recs, n);
            && |out| == |rows| + |fresh'|
            && (forall i :: 0 <= i < |rows| ==> out[i] == CloseRow(rows[i], AsMap(recs), n))
            && (forall i :: |rows| <= i < |out| ==> out[i] == fresh'[i - |rows|] && out[i].key in AsMap(recs))
  {
    InsertSound(Open(rows), recs, n);
  }

  /** A publish at a fresh sequence number keeps every per-key interval disjoint, with at most one open. */
  lemma {:induction false} PublishKeepsRowsOk(rows: seq<Row>, recs: seq<Rec>, pub: nat, n: nat)
    requires RowsOk(rows, pub) && DistinctKeys(recs) && pub < n
    ensures RowsOk(PublishRows(rows, recs, n), n)
  {
    hide RowsOk, OpenIs, Fresh, Open, Insert, AsMap, PublishRows, DistinctKeys, CloseRow;
    OpenSound(rows, pub);
    InsertSound(Open(rows), recs, n);
    PublishShape(rows, recs, n);
    ShapeKeepsRowsOk(rows, PublishRows(rows, recs, n), Insert(Open(rows), recs, n), Open(rows), AsMap(recs), pub, n);
  }

  /** The rows of a publish: the old ones, some of them closed, then the fresh ones. */
  ghost predicate Published(rows: seq<Row>, out: seq<Row>, new': seq<Row>, staged: map<Key, Doc>, n: nat) {
    && |out| == |rows| + |new'|
    && (forall i :: 0 <= i < |rows| ==> out[i] == CloseRow(rows[i], staged, n))
    && (forall i :: |rows| <= i < |out| ==> out[i] == new'[i - |rows|])
  }

  lemma {:induction false} ShapeKeepsRowsOk(rows: seq<Row>, out: seq<Row>, new': seq<Row>, open: map<Key, Doc>, staged: map<Key, Doc>, pub: nat, n: nat)
    requires RowsOk(rows, pub) && OpenIs(rows, open) && Fresh(new', open, staged, n) && pub < n
    requires Published(rows, out, new', staged, n)
    ensures RowsOk(out, n)
  {
    hide OpenIs, Fresh, Published, RowsOk, CloseRow;
    forall i | 0 <= i < |out| ensures out[i].from <= n && (out[i].to.Some? ==> out[i].from < out[i].to.value <= n) {
      RowInOrder(rows, out, new', open, staged, pub, n, i);
    }
    forall i, j | 0 <= i < j < |out| && out[i].key == out[j].key ensures out[i].to.Some? && out[i].to.value <= out[j].from {
      PairInOrder(rows, out, new', open, staged, pub, n, i, j);
    }
    InOrderIsOk(out, n);
  }

  lemma {:induction false} InOrderIsOk(rows: seq<Row>, pub: nat)
    requires forall i :: 0 <= i < |rows| ==> rows[i].from <= pub && (rows[i].to.Some? ==> rows[i].from < rows[i].to.value <= pub)
    requires forall i, j :: 0 <= i < j < |rows| && rows[i].key == rows[j].key ==> rows[i].to.Some? && rows[i].to.value <= rows[j].from
    ensures RowsOk(rows, pub)
  {
  }

  lemma {:induction false} RowInOrder(rows: seq<Row>, out: seq<Row>, new': seq<Row>, open: map<Key, Doc>, staged: map<Key, Doc>, pub: nat, n: nat, i: nat)
    requires RowsOk(rows, pub) && Fresh(new', open, staged, n) && pub < n && Published(rows, out, new', staged, n) && i < |out|
    ensures out[i].from <= n && (out[i].to.Some? ==> out[i].from < out[i].to.value <= n)
  {
    if i < |rows| {
      assert out[i] == CloseRow(rows[i], staged, n);
    } else {
      assert out[i] == new'[i - |rows|];
    }
  }

  lemma {:induction false} PairInOrder(rows: seq<Row>, out: seq<Row>, new': seq<Row>, open: map<Key, Doc>, staged: map<Key, Doc>, pub: nat, n: nat,
                                       i: nat, j: nat)
    requires RowsOk(rows, pub) && OpenIs(rows, open) && Fresh(new', open, staged, n) && pub < n
    requires Published(rows, out, new', staged, n) && i < j < |out| && out[i].key == out[j].key
    ensures out[i].to.Some? && out[i].to.value <= out[j].from
  {
    if j < |rows| {
      assert out[i] == CloseRow(rows[i], staged, n) && out[j] == CloseRow(rows[j], staged, n);
    } else if i < |rows| {
      assert out[i] == CloseRow(rows[i], staged, n) && out[j] == new'[j - |rows|];
      assert IsOpen(rows[i]) ==> rows[i].key in open && open[rows[i].key] == rows[i].doc;
      ClosedBeforeInsert(rows[i], new'[j - |rows|], open, staged, n);
    }
  }

  /** A row that stays open has the staged document, so the same key is not inserted again. */
  lemma {:induction false} ClosedBeforeInsert(old': Row, new': Row, open: map<Key, Doc>, staged: map<Key, Doc>, n: nat)
    requires old'.key == new'.key && new'.key in staged && staged[new'.key] == new'.doc
    requires !(new'.key in open && open[new'.key] == new'.doc)
    requires IsOpen(old') ==> old'.key in open && open[old'.key] == old'.doc
    ensures CloseRow(old', staged, n).to.Some?
  {
  }

  /** After a publish the current list is the staged list, whatever it was before. */
  lemma {:induction false} PublishOpensStaged(rows: seq<Row>, recs: seq<Rec>, pub: nat, n: nat)
    requires RowsOk(rows, pub) && DistinctKeys(recs) && pub < n
    ensures OpenIs(PublishRows(rows, recs, n), AsMap(recs))
    ensures Open(PublishRows(rows, recs, n)) == AsMap(recs)
  {
    var open, staged, out := Open(rows), AsMap(recs), PublishRows(rows, recs, n);
    var new' := Insert(open, recs, n);
    OpenSound(rows, pub);
    InsertSound(open, recs, n);
    PublishShape(rows, recs, n);
    forall i | 0 <= i < |out| && IsOpen(out[i])
      ensures out[i].key in staged && staged[out[i].key] == out[i].doc
    {
      if |rows| <= i {
        assert out[i] == new'[i - |rows|];
      }
    }
    forall k | k in staged ensures exists i :: 0 <= i < |out| && out[i].key == k && IsOpen(out[i]) {
      if k in open && open[k] == staged[k] {
        var i :| 0 <= i < |rows| && rows[i].key == k && IsOpen(rows[i]);
        assert out[i] == rows[i];
      } else {
        var i :| 0 <= i < |new'| && new'[i].key == k;
        assert out[|rows| + i] == new'[i];
      }
    }
    PublishKeepsRowsOk(rows, recs, pub, n);
    OpenUnique(out, staged, n);
  }

  /** Publishing never changes the answer for a sequence number before it. */
  lemma {:induction false} PublishKeepsThePast(rows: seq<Row>, recs: seq<Rec>, pub: nat, n: nat, q: nat, m: map<Key, Doc>)
    requires RowsOk(rows, pub) && DistinctKeys(recs) && pub < n && q < n && ExactlyAt(rows, q, m)
    ensures ExactlyAt(PublishRows(rows, recs, n), q, m)
  {
    var staged := AsMap(recs);
    var new' := Insert(Open(rows), recs, n);
    var out := PublishRows(rows, recs, n);
    InsertSound(Open(rows), recs, n);
    forall i | 0 <= i < |out|
      ensures i < |rows| ==> out[i].key == rows[i].key && out[i].doc == rows[i].doc && (ValidAt(out[i], q) <==> ValidAt(rows[i], q))
      ensures |rows| <= i ==> !ValidAt(out[i], q)
    {
      if i < |rows| {
        assert out[i] == CloseRow(rows[i], staged, n);
      } else {
        assert out[i] == new'[i - |rows|];
      }
    }
    forall k | k in m ensures exists i :: 0 <= i < |out| && out[i].key == k && ValidAt(out[i], q) {
      var i :| 0 <= i < |rows| && rows[i].key == k && ValidAt(rows[i], q);
      assert out[i].key == k;
    }
  }

  /** Time travel survives a publish: old answers stay, and from `n` on the answer is the staged list. */
  lemma {:induction false} PublishKeepsTimeTravel(rows: seq<Row>, log: seq<Publication>, recs: seq<Rec>, pub: nat, n: nat, run: nat)
    requires RowsOk(rows, pub) && DistinctKeys(recs) && pub < n
    requires TimeTravel(rows, log)
    ensures TimeTravel(PublishRows(rows, recs, n), log + [Publication(n, AsMap(recs), run)])
  {
    var out := PublishRows(rows, recs, n);
    var log' := log + [Publication(n, AsMap(recs), run)];
    assert log'[..|log'| - 1] == log;
    PublishKeepsRowsOk(rows, recs, pub, n);
    PublishOpensStaged(rows, recs, pub, n);
    forall q: nat ensures ExactlyAt(out, q, ContentAt(log', q)) {
      if q < n {
        PublishKeepsThePast(rows, recs, pub, n, q, ContentAt(log, q));
      } else {
        assert forall i :: 0 <= i < |out| ==> (ValidAt(out[i], q) <==> IsOpen(out[i]));
      }
    }
  }
}
