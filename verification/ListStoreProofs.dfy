/** What publishing, assessing and resolving keep true of a source's published data. */
module ListStoreProofs {
  import opened Base
  import opened Canonical
  import opened Scd2
  import opened ListStore

  // ---------------------------------------------------------------------------------------------
  // Candidates filed by a publish
  // ---------------------------------------------------------------------------------------------

  /** `rs` are new pending candidates, one for each key whose open row the staged file lost. */
  ghost predicate Filed(rs: seq<Removal>, rows: seq<Row>, staged: map<Key, Doc>, held: set<Key>, vid: nat) {
    && (forall i :: 0 <= i < |rs| ==>
          && rs[i].lastRow < |rows| && rows[rs[i].lastRow].key == rs[i].key && IsOpen(rows[rs[i].lastRow])
          && rs[i].key !in staged && rs[i].key !in held
          && rs[i].detectedIn == vid && rs[i].status == Pending && rs[i].decidedBy == None)
    && (forall i, j :: 0 <= i < j < |rs| ==> rs[i].lastRow < rs[j].lastRow)
    && (forall i :: 0 <= i < |rows| && IsOpen(rows[i]) && rows[i].key !in staged && rows[i].key !in held ==>
          exists j :: 0 <= j < |rs| && rs[j].lastRow == i)
  }

  lemma {:induction false} FileRemovalsSound(rows: seq<Row>, staged: map<Key, Doc>, held: set<Key>, vid: nat)
    ensures Filed(FileRemovals(rows, staged, held, vid), rows, staged, held, vid)
  {
    if rows != [] {
      var n := |rows| - 1;
      FileRemovalsSound(rows[..n], staged, held, vid);
      FiledExtends(FileRemovals(rows[..n], staged, held, vid), rows, staged, held, vid);
      assert FileRemovals(rows[..n], staged, held, vid) + [] == FileRemovals(rows[..n], staged, held, vid);
    }
  }

  lemma {:induction false} FiledExtends(rs: seq<Removal>, rows: seq<Row>, staged: map<Key, Doc>, held: set<Key>, vid: nat)
    requires rows != [] && Filed(rs, rows[..|rows| - 1], staged, held, vid)
    ensures var n, r := |rows| - 1, rows[|rows| - 1];
            Filed(rs + if IsOpen(r) && r.key !in staged && r.key !in held then [Removal(r.key, n, vid, Pending, None)] else [],
                  rows, staged, held, vid)
  {
    var n, r := |rows| - 1, rows[|rows| - 1];
    if IsOpen(r) && r.key !in staged && r.key !in held {
      FiledWithLast(rs, rows, staged, held, vid);
    } else {
      FiledWithoutLast(rs, rows, staged, held, vid);
      assert rs + [] == rs;
    }
  }

  lemma {:induction false} FiledWithoutLast(rs: seq<Removal>, rows: seq<Row>, staged: map<Key, Doc>, held: set<Key>, vid: nat)
    requires rows != [] && Filed(rs, rows[..|rows| - 1], staged, held, vid)
    requires var r := rows[|rows| - 1]; !(IsOpen(r) && r.key !in staged && r.key !in held)
    ensures Filed(rs, rows, staged, held, vid)
  {
    var init := rows[..|rows| - 1];
    forall i | 0 <= i < |rows| && IsOpen(rows[i]) && rows[i].key !in staged && rows[i].key !in held
      ensures exists j :: 0 <= j < |rs| && rs[j].lastRow == i
    {
      assert init[i] == rows[i];
    }
  }

  lemma {:induction false} FiledWithLast(rs: seq<Removal>, rows: seq<Row>, staged: map<Key, Doc>, held: set<Key>, vid: nat)
    requires rows != [] && Filed(rs, rows[..|rows| - 1], staged, held, vid)
    requires var r := rows[|rows| - 1]; IsOpen(r) && r.key !in staged && r.key !in held
    ensures Filed(rs + [Removal(rows[|rows| - 1].key, |rows| - 1, vid, Pending, None)], rows, staged, held, vid)
  {
    var init, n := rows[..|rows| - 1], |rows| - 1;
    var out := rs + [Removal(rows[n].key, n, vid, Pending, None)];
    forall i | 0 <= i < |rs| ensures out[i] == rs[i] && out[i].lastRow < n && rows[out[i].lastRow] == init[rs[i].lastRow] {
    }
    forall i | 0 <= i < |rows| && IsOpen(rows[i]) && rows[i].key !in staged && rows[i].key !in held
      ensures exists j :: 0 <= j < |out| && out[j].lastRow == i
    {
      if i < n {
        assert init[i] == rows[i];
        var j :| 0 <= j < |rs| && rs[j].lastRow == i;
        assert out[j].lastRow == i;
      } else {
        assert out[|rs|].lastRow == i;
      }
    }
  }

  /** A holding key has a holding candidate. */
  lemma {:induction false} HolderOf(rs: seq<Removal>, k: Key) returns (j: nat)
    requires k in HoldingKeys(rs)
    ensures j < |rs| && Holding(rs[j].status) && rs[j].key == k
  {
    j :| 0 <= j < |rs| && Holding(rs[j].status) && rs[j].key == k;
  }

  lemma {:induction false} OpenRowOf(rows: seq<Row>, open: map<Key, Doc>, k: Key) returns (o: nat)
    requires OpenIs(rows, open) && k in open
    ensures o < |rows| && rows[o].key == k && IsOpen(rows[o])
  {
    o :| 0 <= o < |rows| && rows[o].key == k && IsOpen(rows[o]);
  }

  /** The removal table after a publish, entry by entry. */
  ghost predicate NextIs(rs: seq<Removal>, rs': seq<Removal>, rows: seq<Row>, staged: map<Key, Doc>, vid: nat) {
    && |rs| <= |rs'|
    && (forall i :: 0 <= i < |rs| ==> rs'[i] == RelistOne(rs[i], Open(rows), staged))
    && Filed(rs'[|rs|..], rows, staged, HoldingKeys(rs), vid)
  }

  lemma {:induction false} NextRemovalsIs(rs: seq<Removal>, rows: seq<Row>, staged: map<Key, Doc>, vid: nat)
    ensures NextIs(rs, NextRemovals(rs, rows, staged, vid), rows, staged, vid)
  {
    FileRemovalsSound(rows, staged, HoldingKeys(rs), vid);
    assert NextRemovals(rs, rows, staged, vid)[|rs|..] == FileRemovals(rows, staged, HoldingKeys(rs), vid);
  }

  /** A key that was open and is no longer staged has a new pending candidate pointing at its open row. */
  lemma {:induction false} FiledFor(rs: seq<Removal>, rs': seq<Removal>, rows: seq<Row>, staged: map<Key, Doc>, vid: nat, k: Key) returns (j: nat)
    requires NextIs(rs, rs', rows, staged, vid) && OpenIs(rows, Open(rows)) && k in Open(rows) && k !in staged
    requires k !in HoldingKeys(rs)
    ensures |rs| <= j < |rs'| && rs'[j].key == k && rs'[j].status == Pending
  {
    var new' := rs'[|rs|..];
    var o := OpenRowOf(rows, Open(rows), k);
    var i :| 0 <= i < |new'| && new'[i].lastRow == o;
    j := |rs| + i;
    assert rs'[j] == new'[i];
  }

  lemma {:induction false} OpenNotHeld(rs: seq<Removal>, rows: seq<Row>, k: Key)
    requires RemovalsOk(rs, rows, Open(rows)) && k in Open(rows)
    ensures k !in HoldingKeys(rs)
  {
  }

  // ---------------------------------------------------------------------------------------------
  // Publish keeps the invariant
  // ---------------------------------------------------------------------------------------------

  /** A version may be published: it exists, is still unpublished, and nothing newer is live. */
  ghost predicate Publishable(st: Store, vid: nat) {
    && vid < |st.versions| && st.versions[vid].status in {Candidate, Validated, Held}
    && (st.current.Some? ==> st.current.value < vid)
  }

  /** The NEWER check is exactly "not below the live version". */
  lemma {:induction false} NotOutdatedIffNewest(st: Store, vid: nat)
    requires StoreOk(st) && vid < |st.versions|
    ensures Outdated(st.versions, st.versions[vid].seqNo) <==> st.current.Some? && vid < st.current.value
  {
    if st.current.Some? && vid < st.current.value {
      assert PublishedOrSuperseded(st.versions[st.current.value].status);
    }
  }

  /** A publish goes through exactly for an unpublished version above the live one. */
  lemma {:induction false} PublishSucceedsIff(st: Store, vid: nat, recs: seq<Rec>, run: nat, who: Option<Actor>)
    requires StoreOk(st)
    ensures Publish(st, vid, recs, run, who).Ok? <==> Publishable(st, vid)
  {
    if vid < |st.versions| {
      NotOutdatedIffNewest(st, vid);
    }
  }

  lemma {:induction false} PublishVersionsOk(st: Store, vid: nat, who: Option<Actor>)
    requires VersionsOk(st.versions, st.current) && Publishable(st, vid)
    ensures VersionsOk(PublishVersions(st.versions, vid, who), Some(vid))
  {
  }

  lemma {:induction false} PubBelow(st: Store, vid: nat)
    requires VersionsOk(st.versions, st.current) && Publishable(st, vid)
    ensures Pub(st) < st.versions[vid].seqNo
  {
  }

  lemma {:induction false} NextRemovalsOk(rs: seq<Removal>, rs': seq<Removal>, rows: seq<Row>, rows': seq<Row>, staged: map<Key, Doc>, vid: nat, n: nat)
    requires RemovalsOk(rs, rows, Open(rows)) && OpenIs(rows, Open(rows)) && NextIs(rs, rs', rows, staged, vid)
    requires |rows| <= |rows'| && forall i :: 0 <= i < |rows| ==> rows'[i] == CloseRow(rows[i], staged, n)
    requires forall i, j :: 0 <= i < j < |rows| && rows[i].key == rows[j].key ==> rows[i].to.Some?
    ensures RemovalsOk(rs', rows', staged)
  {
    hide RemovalsOk, OpenIs, NextIs, CloseRow;
    NextEntriesOk(rs, rs', rows, rows', staged, vid, n);
    NextHoldersApart(rs, rs', rows, staged, vid);
    NextIsRemovalsOk(rs', rows', staged);
  }

  ghost predicate EntriesOk(rs: seq<Removal>, rows: seq<Row>, open: map<Key, Doc>) {
    forall i :: 0 <= i < |rs| ==>
      && rs[i].lastRow < |rows| && rows[rs[i].lastRow].key == rs[i].key && rows[rs[i].lastRow].to.Some?
      && (Holding(rs[i].status) ==> rs[i].key !in open)
      && (HumanReleased(rs[i].status) ==> rs[i].decidedBy.Some?)
  }

  ghost predicate HoldersApart(rs: seq<Removal>) {
    forall i, j :: 0 <= i < j < |rs| && Holding(rs[i].status) && Holding(rs[j].status) ==> rs[i].key != rs[j].key
  }

  lemma {:induction false} NextIsRemovalsOk(rs: seq<Removal>, rows: seq<Row>, open: map<Key, Doc>)
    requires EntriesOk(rs, rows, open) && HoldersApart(rs)
    ensures RemovalsOk(rs, rows, open)
  {
  }

  lemma {:induction false} NextEntriesOk(rs: seq<Removal>, rs': seq<Removal>, rows: seq<Row>, rows': seq<Row>, staged: map<Key, Doc>, vid: nat, n: nat)
    requires RemovalsOk(rs, rows, Open(rows)) && NextIs(rs, rs', rows, staged, vid)
    requires |rows| <= |rows'| && forall i :: 0 <= i < |rows| ==> rows'[i] == CloseRow(rows[i], staged, n)
    ensures EntriesOk(rs', rows', staged)
  {
    hide Open;
    var new' := rs'[|rs|..];
    forall i | 0 <= i < |rs'|
      ensures var r := rs'[i];
              && r.lastRow < |rows'| && rows'[r.lastRow].key == r.key && rows'[r.lastRow].to.Some?
              && (Holding(r.status) ==> r.key !in staged)
              && (HumanReleased(r.status) ==> r.decidedBy.Some?)
    {
      if i < |rs| {
        assert rs'[i] == RelistOne(rs[i], Open(rows), staged);
      } else {
        assert rs'[i] == new'[i - |rs|];
      }
    }
  }

  lemma {:induction false} NextHoldersApart(rs: seq<Removal>, rs': seq<Removal>, rows: seq<Row>, staged: map<Key, Doc>, vid: nat)
    requires RemovalsOk(rs, rows, Open(rows)) && NextIs(rs, rs', rows, staged, vid)
    requires forall i, j :: 0 <= i < j < |rows| && rows[i].key == rows[j].key ==> rows[i].to.Some?
    ensures HoldersApart(rs')
  {
    hide Open;
    var new' := rs'[|rs|..];
    forall i, j | 0 <= i < j < |rs'| && Holding(rs'[i].status) && Holding(rs'[j].status)
      ensures rs'[i].key != rs'[j].key
    {
      if |rs| <= i {
        assert rs'[i] == new'[i - |rs|] && rs'[j] == new'[j - |rs|];
        assert new'[i - |rs|].lastRow < new'[j - |rs|].lastRow;
      } else if |rs| <= j {
        assert rs'[j] == new'[j - |rs|];
        assert rs[i].key in HoldingKeys(rs);
      }
    }
  }

  lemma {:induction false} NextAccounted(rs: seq<Removal>, rs': seq<Removal>, rows: seq<Row>, staged: map<Key, Doc>, vid: nat, i: nat)
    requires RemovalsOk(rs, rows, Open(rows)) && OpenIs(rows, Open(rows)) && NextIs(rs, rs', rows, staged, vid)
    requires Accounted(rs, rows, Open(rows)) && i < |rows| && rows[i].key !in staged
    ensures HeldOrReleased(rs', rows[i].key)
  {
    var k := rows[i].key;
    if k in Open(rows) {
      OpenNotHeld(rs, rows, k);
      var j := FiledFor(rs, rs', rows, staged, vid, k);
    } else {
      assert HeldOrReleased(rs, k);
      var j :| 0 <= j < |rs| && rs[j].key == k && (Holding(rs[j].status) || HumanReleased(rs[j].status));
      assert rs'[j] == RelistOne(rs[j], Open(rows), staged);
    }
  }

  lemma {:induction false} NextTablesOk(rs: seq<Removal>, rows: seq<Row>, recs: seq<Rec>, vid: nat, n: nat, pub: nat)
    requires RemovalsOk(rs, rows, Open(rows)) && Accounted(rs, rows, Open(rows)) && RowsOk(rows, pub) && DistinctKeys(recs)
    ensures var rs', rows' := NextRemovals(rs, rows, AsMap(recs), vid), PublishRows(rows, recs, n);
            RemovalsOk(rs', rows', AsMap(recs)) && Accounted(rs', rows', AsMap(recs))
  {
    var staged := AsMap(recs);
    var rs', rows' := NextRemovals(rs, rows, staged, vid), PublishRows(rows, recs, n);
    NextRemovalsIs(rs, rows, staged, vid);
    OpenSound(rows, pub);
    PublishShape(rows, recs, n);
    NextRemovalsOk(rs, rs', rows, rows', staged, vid, n);
    forall i | 0 <= i < |rows| && rows[i].key !in staged ensures HeldOrReleased(rs', rows[i].key) {
      NextAccounted(rs, rs', rows, staged, vid, i);
    }
  }

  /** Each part of the store after a publish. */
  lemma {:induction false} PublishParts(st: Store, vid: nat, recs: seq<Rec>, run: nat, who: Option<Actor>)
    requires StoreOk(st) && Publishable(st, vid) && DistinctKeys(recs)
    ensures var n, st' := st.versions[vid].seqNo, PublishEffect(st, vid, recs, run, who);
            && VersionsOk(st'.versions, st'.current) && Pub(st') == n && Pub(st) < n && RowsOk(st'.rows, n)
            && Open(st'.rows) == AsMap(recs) && TimeTravel(st'.rows, st'.log)
            && RemovalsOk(st'.removals, st'.rows, AsMap(recs)) && Accounted(st'.removals, st'.rows, AsMap(recs))
  {
    var n, st' := st.versions[vid].seqNo, PublishEffect(st, vid, recs, run, who);
    PubBelow(st, vid);
    PublishVersionsOk(st, vid, who);
    assert st'.versions[vid].seqNo == n;
    hide VersionsOk, RowsOk, TimeTravel, RemovalsOk, Accounted, PublishRows, NextRemovals, PublishVersions, ExpireProposals, CrosslistOf,
      Open, AsMap, Publishable, LogOk, DistinctKeys;
    PublishKeepsRowsOk(st.rows, recs, Pub(st), n);
    PublishOpensStaged(st.rows, recs, Pub(st), n);
    PublishKeepsTimeTravel(st.rows, st.log, recs, Pub(st), n, run);
    NextTablesOk(st.removals, st.rows, recs, vid, n, Pub(st));
  }

  /** Publishing keeps every invariant of the store; the live version becomes `vid`, the live list the staged one. */
  lemma {:induction false} PublishKeepsStoreOk(st: Store, vid: nat, recs: seq<Rec>, run: nat, who: Option<Actor>)
    requires StoreOk(st) && Publishable(st, vid) && DistinctKeys(recs)
    ensures StoreOk(PublishEffect(st, vid, recs, run, who))
    ensures Open(PublishEffect(st, vid, recs, run, who).rows) == AsMap(recs)
  {
    var st', n := PublishEffect(st, vid, recs, run, who), st.versions[vid].seqNo;
    PublishParts(st, vid, recs, run, who);
    LogGrows(st.log, Pub(st), Publication(n, AsMap(recs), run));
    assert st'.crosslist == CrosslistOf(st'.rows) && st'.log == st.log + [Publication(n, AsMap(recs), run)];
    hide VersionsOk, RowsOk, TimeTravel, RemovalsOk, Accounted, LogOk, PublishEffect, CrosslistOf, Open, AsMap, Publishable, DistinctKeys, Pub;
  }

  lemma {:induction false} LogGrows(log: seq<Publication>, pub: nat, p: Publication)
    requires LogOk(log, pub) && pub < p.seqNo
    ensures LogOk(log + [p], p.seqNo)
  {
  }

  // ---------------------------------------------------------------------------------------------
  // Blocking
  // ---------------------------------------------------------------------------------------------

  /** A publish only ever adds to what blocks: the staged keys join, nothing leaves. */
  lemma {:induction false} PublishNeverUnblocks(st: Store, vid: nat, recs: seq<Rec>, run: nat, who: Option<Actor>)
    requires StoreOk(st) && Publishable(st, vid) && DistinctKeys(recs)
    ensures Blocking(PublishEffect(st, vid, recs, run, who)) == Blocking(st) + AsMap(recs).Keys
  {
    PublishKeepsStoreOk(st, vid, recs, run, who);
    OpenSound(st.rows, Pub(st));
    NextRemovalsIs(st.removals, st.rows, AsMap(recs), vid);
    NextBlocks(st.removals, NextRemovals(st.removals, st.rows, AsMap(recs), vid), st.rows, AsMap(recs), vid);
  }

  lemma {:induction false} NextBlocks(rs: seq<Removal>, rs': seq<Removal>, rows: seq<Row>, staged: map<Key, Doc>, vid: nat)
    requires RemovalsOk(rs, rows, Open(rows)) && OpenIs(rows, Open(rows)) && NextIs(rs, rs', rows, staged, vid)
    ensures staged.Keys + HoldingKeys(rs') == Open(rows).Keys + HoldingKeys(rs) + staged.Keys
  {
    forall k | k in Open(rows).Keys + HoldingKeys(rs) && k !in staged ensures k in HoldingKeys(rs') {
      if k in Open(rows) {
        OpenNotHeld(rs, rows, k);
        var j := FiledFor(rs, rs', rows, staged, vid, k);
      } else {
        var j := HolderOf(rs, k);
        assert rs'[j] == RelistOne(rs[j], Open(rows), staged);
      }
    }
    forall k | k in HoldingKeys(rs') ensures k in Open(rows).Keys + HoldingKeys(rs) {
      var j := HolderOf(rs', k);
      if j < |rs| {
        assert rs'[j] == RelistOne(rs[j], Open(rows), staged);
      } else {
        assert rs'[j] == rs'[|rs|..][j - |rs|];
      }
    }
  }

  /** Exactly the keys that vanished get a candidate, each pointing at its last row: the conflict clause never fires. */
  lemma {:induction false} EveryRemovalIsFiled(st: Store, vid: nat, recs: seq<Rec>, run: nat, who: Option<Actor>)
    requires StoreOk(st) && Publishable(st, vid) && DistinctKeys(recs)
    ensures var new' := PublishEffect(st, vid, recs, run, who).removals[|st.removals|..];
            && (forall i :: 0 <= i < |new'| ==>
                  new'[i].status == Pending && new'[i].lastRow < |st.rows| && IsOpen(st.rows[new'[i].lastRow]))
            && (forall k :: k in Open(st.rows) && k !in AsMap(recs) <==> exists i :: 0 <= i < |new'| && new'[i].key == k)
  {
    var rs, rs' := st.removals, NextRemovals(st.removals, st.rows, AsMap(recs), vid);
    NextRemovalsIs(rs, st.rows, AsMap(recs), vid);
    OpenSound(st.rows, Pub(st));
    FiledIffVanished(rs, rs', st.rows, AsMap(recs), vid);
  }

  lemma {:induction false} FiledIffVanished(rs: seq<Removal>, rs': seq<Removal>, rows: seq<Row>, staged: map<Key, Doc>, vid: nat)
    requires RemovalsOk(rs, rows, Open(rows)) && OpenIs(rows, Open(rows)) && NextIs(rs, rs', rows, staged, vid)
    ensures forall k :: k in Open(rows) && k !in staged <==> exists i :: 0 <= i < |rs'[|rs|..]| && rs'[|rs|..][i].key == k
  {
    var new' := rs'[|rs|..];
    forall k | k in Open(rows) && k !in staged ensures exists i :: 0 <= i < |new'| && new'[i].key == k {
      OpenNotHeld(rs, rows, k);
      var j := FiledFor(rs, rs', rows, staged, vid, k);
      assert new'[j - |rs|].key == k;
    }
  }

  // ---------------------------------------------------------------------------------------------
  // Assess and resolve
  // ---------------------------------------------------------------------------------------------

  lemma {:induction false} AccountedUpdate(rs: seq<Removal>, rs': seq<Removal>, c: nat, rows: seq<Row>, open: map<Key, Doc>)
    requires Accounted(rs, rows, open) && c < |rs| && |rs'| == |rs| && rs' == rs[c := rs'[c]]
    requires rs'[c].key == rs[c].key && (Holding(rs'[c].status) || HumanReleased(rs'[c].status))
    ensures Accounted(rs', rows, open)
  {
    forall i | 0 <= i < |rows| && rows[i].key !in open ensures HeldOrReleased(rs', rows[i].key) {
      assert HeldOrReleased(rs, rows[i].key);
      var j :| 0 <= j < |rs| && rs[j].key == rows[i].key && (Holding(rs[j].status) || HumanReleased(rs[j].status));
      assert rs'[j].key == rows[i].key;
    }
  }

  lemma {:induction false} AssessKeepsStoreOk(st: Store, c: nat, evidence: bool, hits: bool, suspects: bool, who: Actor)
    requires StoreOk(st)
    ensures StoreOk(Assess(st, c, evidence, hits, suspects, who))
  {
    if c < |st.removals| && Holding(st.removals[c].status) {
      var st' := Assess(st, c, evidence, hits, suspects, who);
      AccountedUpdate(st.removals, st'.removals, c, st.rows, Open(st.rows));
    }
  }

  lemma {:induction false} ResolveKeepsStoreOk(st: Store, c: nat, res: Resolution, reviewer: Actor)
    requires StoreOk(st)
    ensures StoreOk(Resolve(st, c, res, reviewer))
  {
    if c < |st.removals| && Holding(st.removals[c].status) {
      var st' := Resolve(st, c, res, reviewer);
      AccountedUpdate(st.removals, st'.removals, c, st.rows, Open(st.rows));
    }
  }

  /** Still listed for screening: nothing, evidence or a parser fault was found, but no reviewer let it go. */
  lemma {:induction false} StillBlocks(s: RemovalStatus)
    ensures Holding(s) <==> s != Confirmed && s != StillListedElsewhere && s != RejectedIdChange && s != Relisted
  {
  }

  /** A reviewer is being asked to confirm this removal. */
  ghost predicate Asked(ps: seq<Proposal>, c: nat) {
    exists p :: p in ps && p.status == Awaiting && p.subject.RemovalConfirmation? && p.subject.candidate == c
  }

  lemma {:induction false} AskedIff(ps: seq<Proposal>, c: nat)
    ensures AwaitingConfirmation(ps, c) <==> Asked(ps, c)
  {
    if AwaitingConfirmation(ps, c) {
      var i :| 0 <= i < |ps| && ps[i].status == Awaiting && ps[i].subject.RemovalConfirmation? && ps[i].subject.candidate == c;
      assert ps[i] in ps;
    }
  }

  /** No two proposals ask for the same removal at once. */
  ghost predicate AskedOnce(ps: seq<Proposal>) {
    forall i, j :: 0 <= i < j < |ps| && ps[i].status == Awaiting && ps[j].status == Awaiting ==>
      ps[i].subject.RemovalConfirmation? && ps[j].subject.RemovalConfirmation? ==> ps[i].subject.candidate != ps[j].subject.candidate
  }

  /** While a reviewer is being asked, another assessment asks nothing; so nobody is ever asked twice at once. */
  lemma {:induction false} AssessAsksOnce(st: Store, c: nat, evidence: bool, hits: bool, suspects: bool, who: Actor)
    ensures Asked(st.proposals, c) ==> Assess(st, c, evidence, hits, suspects, who).proposals == st.proposals
    ensures AskedOnce(st.proposals) ==> AskedOnce(Assess(st, c, evidence, hits, suspects, who).proposals)
  {
    AskedIff(st.proposals, c);
  }

  /**
   From the evidence to the outcome. A delisting notice marks the candidate; with one the assessment proposes to confirm
   the removal, or to release this listing only if the record is on another list; without one but with the record under
   a new key it proposes an ID change; otherwise nothing. Applied as recommended, the candidate gets exactly that
   outcome, in the reviewer's name, and its key stops blocking.
   */
  lemma {:induction false} RecommendationIsApplied(st: Store, c: nat, evidence: bool, hits: bool, suspects: bool, who: Actor, reviewer: Actor)
    requires StoreOk(st) && c < |st.removals| && Holding(st.removals[c].status) && !Asked(st.proposals, c)
    ensures var st' := Assess(st, c, evidence, hits, suspects, who);
            && st'.removals[c].status == (if evidence then EvidenceFound else st.removals[c].status)
            && (!evidence && !suspects ==> st'.proposals == st.proposals)
            && (evidence || suspects ==>
                  && |st'.proposals| == |st.proposals| + 1 && st'.proposals[..|st.proposals|] == st.proposals
                  && var p := st'.proposals[|st.proposals|];
                  && p.subject.RemovalConfirmation? && p.subject.candidate == c && p.proposedBy == who && p.status == Awaiting
                  && var out := Resolve(st', c, p.subject.recommendation, reviewer);
                  && out.removals[c].status == (if !evidence then RejectedIdChange else if hits then StillListedElsewhere else Confirmed)
                  && out.removals[c].decidedBy == Some(reviewer) && st.removals[c].key !in Blocking(out))
  {
    AskedIff(st.proposals, c);
    hide StoreOk, AwaitingConfirmation, Asked, Blocking;
    AssessKeepsStoreOk(st, c, evidence, hits, suspects, who);
    if evidence || suspects {
      var st' := Assess(st, c, evidence, hits, suspects, who);
      var res := st'.proposals[|st.proposals|].subject.recommendation;
      ReleasedStopsBlocking(st', c, res, reviewer);
    }
  }

  lemma {:induction false} ReleasedStopsBlocking(st: Store, c: nat, res: Resolution, reviewer: Actor)
    requires StoreOk(st) && c < |st.removals| && Holding(st.removals[c].status) && res != RejectAsParserError
    ensures st.removals[c].key !in Blocking(Resolve(st, c, res, reviewer))
  {
    var st' := Resolve(st, c, res, reviewer);
    assert RemovalsOk(st.removals, st.rows, Open(st.rows));
    hide Open;
    forall j | 0 <= j < |st'.removals| && Holding(st'.removals[j].status) ensures st'.removals[j].key != st.removals[c].key {
      assert j != c && st'.removals[j] == st.removals[j];
    }
  }

  /** A parser fault is no reason to let a record go: it keeps blocking, and another decision may follow. */
  lemma {:induction false} ParserFaultKeepsBlocking(st: Store, c: nat, reviewer: Actor)
    requires c < |st.removals| && Holding(st.removals[c].status)
    ensures var st' := Resolve(st, c, RejectAsParserError, reviewer);
            st'.removals[c].status == RejectedParser && Blocking(st') == Blocking(st)
  {
    var st' := Resolve(st, c, RejectAsParserError, reviewer);
    forall k ensures k in HoldingKeys(st'.removals) <==> k in HoldingKeys(st.removals) {
      if k in HoldingKeys(st.removals) {
        var j := HolderOf(st.removals, k);
        assert st'.removals[j].key == k;
      }
      if k in HoldingKeys(st'.removals) {
        var j := HolderOf(st'.removals, k);
        assert st.removals[j].key == k;
      }
    }
    hide Open;
  }

  /** A record that came back ends its candidate in the system's name; the other candidates stay as they were. */
  lemma {:induction false} ReturnedIsRelisted(st: Store, vid: nat, recs: seq<Rec>, run: nat, who: Option<Actor>, c: nat)
    requires StoreOk(st) && Publishable(st, vid) && c < |st.removals|
    ensures var out := PublishEffect(st, vid, recs, run, who).removals;
            && c < |out|
            && out[c] == if Holding(st.removals[c].status) && st.removals[c].key in AsMap(recs)
                         then st.removals[c].(status := Relisted, decidedBy := Some(Actor("system"))) else st.removals[c]
  {
    assert RemovalsOk(st.removals, st.rows, Open(st.rows));
    NextRemovalsIs(st.removals, st.rows, AsMap(recs), vid);
    hide Open, AsMap, NextRemovals;
    assert NextRemovals(st.removals, st.rows, AsMap(recs), vid)[c] == RelistOne(st.removals[c], Open(st.rows), AsMap(recs));
  }

  /** Looking for evidence never changes who is blocked. */
  lemma {:induction false} AssessKeepsHeld(st: Store, c: nat, evidence: bool, hits: bool, suspects: bool, who: Actor)
    ensures var st' := Assess(st, c, evidence, hits, suspects, who);
            && st'.rows == st.rows && Blocking(st') == Blocking(st) && |st'.removals| == |st.removals|
            && forall j :: 0 <= j < |st.removals| ==> (Holding(st'.removals[j].status) <==> Holding(st.removals[j].status))
  {
    if c < |st.removals| && Holding(st.removals[c].status) {
      var st' := Assess(st, c, evidence, hits, suspects, who);
      forall k ensures k in HoldingKeys(st'.removals) <==> k in HoldingKeys(st.removals) {
        if k in HoldingKeys(st.removals) {
          var j :| 0 <= j < |st.removals| && Holding(st.removals[j].status) && st.removals[j].key == k;
          assert st'.removals[j].key == k && Holding(st'.removals[j].status);
        }
        if k in HoldingKeys(st'.removals) {
          var j :| 0 <= j < |st'.removals| && Holding(st'.removals[j].status) && st'.removals[j].key == k;
          assert st.removals[j].key == k && Holding(st.removals[j].status);
        }
      }
    }
  }

  /** A resolution releases the one key of its candidate, exactly when that was holding and not blamed on the parser. */
  lemma {:induction false} ResolveReleasesOne(st: Store, c: nat, res: Resolution, reviewer: Actor)
    requires StoreOk(st)
    ensures var st' := Resolve(st, c, res, reviewer);
            Blocking(st') == if c < |st.removals| && Holding(st.removals[c].status) && res != RejectAsParserError
                             then Blocking(st) - {st.removals[c].key} else Blocking(st)
  {
    if c < |st.removals| && Holding(st.removals[c].status) {
      var rs' := Resolve(st, c, res, reviewer).removals;
      assert RemovalsOk(st.removals, st.rows, Open(st.rows));
      HoldingAfterUpdate(st.removals, rs', c);
    }
  }

  lemma {:induction false} HoldingAfterUpdate(rs: seq<Removal>, rs': seq<Removal>, c: nat)
    requires c < |rs| == |rs'| && rs' == rs[c := rs'[c]] && rs'[c].key == rs[c].key && Holding(rs[c].status)
    requires forall i, j :: 0 <= i < j < |rs| && Holding(rs[i].status) && Holding(rs[j].status) ==> rs[i].key != rs[j].key
    ensures HoldingKeys(rs') == HoldingKeys(rs) - (if Holding(rs'[c].status) then {} else {rs[c].key})
  {
    var k0 := rs[c].key;
    forall k | k in HoldingKeys(rs) && (k != k0 || Holding(rs'[c].status)) ensures k in HoldingKeys(rs') {
      var j := HolderOf(rs, k);
      assert rs'[j].key == k && Holding(rs'[j].status);
    }
    forall k | k in HoldingKeys(rs') ensures k in HoldingKeys(rs) && (k != k0 || Holding(rs'[c].status)) {
      var j := HolderOf(rs', k);
      assert Holding(rs[j].status) && rs[j].key == k;
    }
  }
}
