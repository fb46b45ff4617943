/**
 The published data of one source and everything a publish or a reviewer's decision changes in one
 transaction: record rows, list versions, removal candidates, review proposals and the cross-list index.
 Identity columns are positions in the tables, all of which only grow.
 */
module ListStore {
  import opened Base
  import opened Canonical
  import opened Scd2

  datatype VersionStatus = Candidate | Validated | Held | Quarantined | Published | Superseded | Rejected

  /** `reader` is the code and adapter configuration that read the file; see the state machine's environment. */
  datatype Version = Version(seqNo: nat, run: nat, sha: Sha, reader: nat, stamp: Option<int>, status: VersionStatus,
                             recordCount: nat, releasedBy: Option<Actor>)

  datatype RemovalStatus =
    | Pending | EvidenceFound | RejectedParser                        // still blocking
    | Confirmed | StillListedElsewhere | RejectedIdChange             // released by a reviewer
    | Relisted                                                        // the record came back

  /** A record that disappeared from the file; `lastRow` is the row that keeps blocking. */
  datatype Removal = Removal(key: Key, lastRow: nat, detectedIn: nat, status: RemovalStatus, decidedBy: Option<Actor>)

  datatype Resolution = Confirm | ReleaseListedElsewhere | RejectAsIdChange | RejectAsParserError

  datatype Subject =
    | LargeChangeRelease(version: nat)
    | RemovalConfirmation(candidate: nat, recommendation: Resolution)

  datatype ProposalStatus = Awaiting | Declined | Applied | Expired

  datatype Proposal = Proposal(subject: Subject, proposedBy: Actor, status: ProposalStatus, reviewedBy: Option<Actor>)

  datatype CrossKey = CrossKey(kind: IdKind, value: string, key: Key, row: nat)

  datatype Store = Store(
    rows: seq<Row>, versions: seq<Version>, removals: seq<Removal>, proposals: seq<Proposal>,
    current: Option<nat>, crosslist: set<CrossKey>, log: seq<Publication>)

  datatype PublishError = NoSuchVersion | WrongStatus | NewerPublished

  const EmptyStore := Store([], [], [], [], None, {}, [])

  /** HOLDING_STATUSES: a removal in one of these keeps its record in every screening snapshot. */
  predicate Holding(s: RemovalStatus) {
    s in {Pending, EvidenceFound, RejectedParser}
  }

  /** Statuses only a reviewer's resolution writes, and that stop the record from blocking. */
  predicate HumanReleased(s: RemovalStatus) {
    s in {Confirmed, StillListedElsewhere, RejectedIdChange}
  }

  predicate PublishedOrSuperseded(s: VersionStatus) {
    s in {Published, Superseded}
  }

  /** The sequence number of the version that is live, 0 before the first publish. */
  function Pub(st: Store): nat {
    if st.current.Some? && st.current.value < |st.versions| then st.versions[st.current.value].seqNo else 0
  }

  function HoldingKeys(removals: seq<Removal>): set<Key> {
    set j | 0 <= j < |removals| && Holding(removals[j].status) :: removals[j].key
  }

  /** Everything screening must match against: listed now, or gone but not yet released by a reviewer. */
  function Blocking(st: Store): set<Key> {
    Open(st.rows).Keys + HoldingKeys(st.removals)
  }

  // ---------------------------------------------------------------------------------------------
  // Cross-list index
  // ---------------------------------------------------------------------------------------------

  predicate Indexed(x: Identifier) {
    || x.kind in {UnRef, Lei, OfacUid}
    || (x.kind == Imo && x.checksumValid)
    || (x.kind in {Registration, Passport} && x.country.Some?)
  }

  function CrossValue(x: Identifier): string {
    if x.kind in {Registration, Passport} && x.country.Some? then x.valueNorm + "|" + x.country.value else x.valueNorm
  }

  function RowKeys(i: nat, r: Row): set<CrossKey> {
    set j | 0 <= j < |r.doc.identifiers| && Indexed(r.doc.identifiers[j]) ::
      CrossKey(r.doc.identifiers[j].kind, CrossValue(r.doc.identifiers[j]), r.key, i)
  }

  /** The index as a function of the open rows alone. */
  function CrosslistOf(rows: seq<Row>): set<CrossKey> {
    set i, x | 0 <= i < |rows| && IsOpen(rows[i]) && x in RowKeys(i, rows[i]) :: x
  }

  // ---------------------------------------------------------------------------------------------
  // Publish
  // ---------------------------------------------------------------------------------------------

  predicate Outdated(versions: seq<Version>, n: nat) {
    exists i :: 0 <= i < |versions| && PublishedOrSuperseded(versions[i].status) && n < versions[i].seqNo
  }

  function SupersedeOne(v: Version, n: nat): Version {
    if v.status == Published || (v.status == Held && v.seqNo < n) then v.(status := Superseded) else v
  }

  function PublishVersions(vs: seq<Version>, vid: nat, who: Option<Actor>): seq<Version>
    requires vid < |vs|
  {
    seq(|vs|, i requires 0 <= i < |vs| =>
      if i == vid then vs[i].(status := Published, releasedBy := who) else SupersedeOne(vs[i], vs[vid].seqNo))
  }

  function ExpireOne(p: Proposal, vid: nat): Proposal {
    if p.subject.LargeChangeRelease? && p.status == Awaiting && p.subject.version != vid then p.(status := Expired) else p
  }

  function ExpireProposals(ps: seq<Proposal>, vid: nat): seq<Proposal> {
    seq(|ps|, i requires 0 <= i < |ps| => ExpireOne(ps[i], vid))
  }

  const SYSTEM := Actor("system")

  function RelistOne(r: Removal, open: map<Key, Doc>, staged: map<Key, Doc>): Removal {
    if Holding(r.status) && r.key in staged && r.key !in open then r.(status := Relisted, decidedBy := Some(SYSTEM)) else r
  }

  function RelistRemovals(rs: seq<Removal>, open: map<Key, Doc>, staged: map<Key, Doc>): seq<Removal> {
    seq(|rs|, i requires 0 <= i < |rs| => RelistOne(rs[i], open, staged))
  }

  /** One new candidate per open row the file no longer has, unless its key already has a holding one. */
  function FileRemovals(rows: seq<Row>, staged: map<Key, Doc>, held: set<Key>, vid: nat): seq<Removal> {
    if rows == [] then []
    else
      var i := |rows| - 1;
      var r := rows[i];
      FileRemovals(rows[..i], staged, held, vid)
      + (if IsOpen(r) && r.key !in staged && r.key !in held then [Removal(r.key, i, vid, Pending, None)] else [])
  }

  function NextRemovals(rs: seq<Removal>, rows: seq<Row>, staged: map<Key, Doc>, vid: nat): seq<Removal> {
    RelistRemovals(rs, Open(rows), staged) + FileRemovals(rows, staged, HoldingKeys(rs), vid)
  }

  /** The whole effect of a successful publish. */
  function PublishEffect(st: Store, vid: nat, recs: seq<Rec>, run: nat, who: Option<Actor>): Store
    requires vid < |st.versions|
  {
    var n, staged := st.versions[vid].seqNo, AsMap(recs);
    var rows := PublishRows(st.rows, recs, n);
    Store(rows,
          PublishVersions(st.versions, vid, who),
          NextRemovals(st.removals, st.rows, staged, vid),
          ExpireProposals(st.proposals, vid),
          Some(vid),
          CrosslistOf(rows),
          st.log + [Publication(n, staged, run)])
  }

  function Publish(st: Store, vid: nat, recs: seq<Rec>, run: nat, who: Option<Actor>): Result<Store, PublishError> {
    if vid >= |st.versions| then Err(NoSuchVersion)
    else if st.versions[vid].status !in {Candidate, Validated, Held} then Err(WrongStatus)
    else if Outdated(st.versions, st.versions[vid].seqNo) then Err(NewerPublished)
    else Ok(PublishEffect(st, vid, recs, run, who))
  }

  // ---------------------------------------------------------------------------------------------
  // Removal assessment and resolution
  // ---------------------------------------------------------------------------------------------

  predicate AwaitingConfirmation(ps: seq<Proposal>, c: nat) {
    exists i :: 0 <= i < |ps| && ps[i].status == Awaiting && ps[i].subject.RemovalConfirmation? && ps[i].subject.candidate == c
  }

  /** What the evidence suggests: nothing, an ID change, or a delisting (here or only on this list). */
  function Recommend(evidence: bool, hits: bool, suspects: bool): Option<Resolution> {
    if suspects && !evidence then Some(RejectAsIdChange)
    else if evidence && hits then Some(ReleaseListedElsewhere)
    else if evidence then Some(Confirm)
    else None
  }

  function Assess(st: Store, c: nat, evidence: bool, hits: bool, suspects: bool, who: Actor): Store {
    if c >= |st.removals| || !Holding(st.removals[c].status) then st
    else
      var status := if evidence then EvidenceFound else st.removals[c].status;
      var rec := Recommend(evidence, hits, suspects);
      st.(removals := st.removals[c := st.removals[c].(status := status)],
          proposals := if rec.None? || AwaitingConfirmation(st.proposals, c) then st.proposals
                       else st.proposals + [Proposal(RemovalConfirmation(c, rec.value), who, Awaiting, None)])
  }

  function Outcome(res: Resolution): RemovalStatus {
    match res
    case Confirm => Confirmed
    case ReleaseListedElsewhere => StillListedElsewhere
    case RejectAsIdChange => RejectedIdChange
    case RejectAsParserError => RejectedParser
  }

  function Resolve(st: Store, c: nat, res: Resolution, reviewer: Actor): Store {
    if c < |st.removals| && Holding(st.removals[c].status) then
      st.(removals := st.removals[c := st.removals[c].(status := Outcome(res), decidedBy := Some(reviewer))])
    else st
  }

  // ---------------------------------------------------------------------------------------------
  // Invariant
  // ---------------------------------------------------------------------------------------------

  /** At most one PUBLISHED version, it is `current`; nothing above it was ever published, nothing held is below it. */
  ghost predicate VersionsOk(vs: seq<Version>, current: Option<nat>) {
    && (current.Some? ==> current.value < |vs| && vs[current.value].status == Published)
    && (forall i :: 0 <= i < |vs| ==>
          && vs[i].seqNo == i + 1
          && (vs[i].status == Published ==> current == Some(i))
          && (vs[i].status == Superseded ==> current.Some? && i < current.value)
          && (vs[i].status == Held && current.Some? ==> current.value < i))
  }

  /** A candidate points at the closed row that still blocks; open keys and earlier candidates never collide. */
  ghost predicate RemovalsOk(rs: seq<Removal>, rows: seq<Row>, open: map<Key, Doc>) {
    && (forall i :: 0 <= i < |rs| ==>
          && rs[i].lastRow < |rows| && rows[rs[i].lastRow].key == rs[i].key && rows[rs[i].lastRow].to.Some?
          && (Holding(rs[i].status) ==> rs[i].key !in open)
          && (HumanReleased(rs[i].status) ==> rs[i].decidedBy.Some?))
    && (forall i, j :: 0 <= i < j < |rs| && Holding(rs[i].status) && Holding(rs[j].status) ==> rs[i].key != rs[j].key)
  }

  ghost predicate HeldOrReleased(rs: seq<Removal>, k: Key) {
    exists j :: 0 <= j < |rs| && rs[j].key == k && (Holding(rs[j].status) || HumanReleased(rs[j].status))
  }

  /** No record that was ever listed drops out silently: it is listed, held, or was released by a reviewer. */
  ghost predicate Accounted(rs: seq<Removal>, rows: seq<Row>, open: map<Key, Doc>) {
    forall i :: 0 <= i < |rows| ==> rows[i].key in open || HeldOrReleased(rs, rows[i].key)
  }

  ghost predicate LogOk(log: seq<Publication>, pub: nat) {
    && (forall i, j :: 0 <= i < j < |log| ==> log[i].seqNo < log[j].seqNo)
    && (log == [] ==> pub == 0)
    && (log != [] ==> log[|log| - 1].seqNo == pub)
  }

  ghost predicate StoreOk(st: Store) {
    && VersionsOk(st.versions, st.current)
    && RowsOk(st.rows, Pub(st))
    && LogOk(st.log, Pub(st))
    && TimeTravel(st.rows, st.log)
    && RemovalsOk(st.removals, st.rows, Open(st.rows))
    && Accounted(st.removals, st.rows, Open(st.rows))
    && st.crosslist == CrosslistOf(st.rows)
  }

  lemma {:induction false} EmptyStoreOk()
    ensures StoreOk(EmptyStore)
  {
  }
}
