/**
 Quality metrics of a staged list: counters folded over the documents, and the shares computed from them. A field
 predicate may fail on a malformed document, which is counted and otherwise ignored. The fold is stated for any
 table of fields; `SourceFields` is the table in use.
 */
module Metrics {
  import opened Base
  import opened Canonical
  import I = Identifiers

  datatype Verdict = Hit | Miss | Malformed

  datatype FieldName =
    | Alias | AnyAddress | AddressCountry | Street | ListedOn | Program | Measures | Reason | LegalEvidence
    | Dob | DobFull | BirthPlace | Nationality | PassportNo | NationalIdNo | Gender
    | CountryGiven | RegistrationId | LeiCode | OwnershipLink
    | ImoNumber | ImoChecked | MmsiNumber | CallSignGiven | Flag | FormerFlag | VesselType | BuildYear | OwnerLink
    | Msn | TailNumber | Model | Operator

  datatype Field = Field(name: FieldName, test: Doc -> Verdict)

  /** Fields common to every entity type, and those of one type. */
  datatype Group = Common | Of(entityType: EntityType)

  type Table = Group -> seq<Field>

  // ---------------------------------------------------------------------------------------------
  // The table in use
  // ---------------------------------------------------------------------------------------------

  /** Python truth of an optional text. */
  predicate Given(t: Option<Text>) { t.Some? && t.value.chars != "" }

  function If(c: bool): Verdict { if c then Hit else Miss }

  predicate HasId(d: Doc, kinds: set<IdKind>) { exists i :: 0 <= i < |d.identifiers| && d.identifiers[i].kind in kinds }

  predicate HasCountry(d: Doc) {
    || (exists i :: 0 <= i < |d.countries| && (Given(d.countries[i].country) || Given(d.countries[i].countryRaw)))
    || (exists i :: 0 <= i < |d.addresses| && (Given(d.addresses[i].country) || Given(d.addresses[i].countryRaw)))
  }

  function CommonFields(): seq<Field> {
    [Field(Alias, (d: Doc) => If(exists i :: 0 <= i < |d.names| && d.names[i].kind != Primary)),
     Field(AnyAddress, (d: Doc) => If(d.addresses != [])),
     Field(AddressCountry, (d: Doc) => If(exists i :: 0 <= i < |d.addresses| && Given(d.addresses[i].country))),
     Field(Street, (d: Doc) => If(exists i :: 0 <= i < |d.addresses| && Given(d.addresses[i].street))),
     Field(ListedOn, (d: Doc) => If(exists i :: 0 <= i < |d.listings| && d.listings[i].listedOn.Some?)),
     Field(Program, (d: Doc) => If(exists i :: 0 <= i < |d.listings| && Given(d.listings[i].program))),
     Field(Measures, (d: Doc) => If(exists i :: 0 <= i < |d.listings| && d.listings[i].measures != 0)),
     Field(Reason, (d: Doc) => If(exists i :: 0 <= i < |d.listings| && Given(d.listings[i].reason))),
     Field(LegalEvidence,
           (d: Doc) => If(exists i :: 0 <= i < |d.listings| && (Given(d.listings[i].evidenceUrl) || Given(d.listings[i].legalBasis))))]
  }

  function PersonFields(): seq<Field> {
    [Field(Dob, (d: Doc) => If(exists i :: 0 <= i < |d.births| && d.births[i] != Unparsed)),
     Field(DobFull, (d: Doc) => If(Day in d.births)),
     Field(BirthPlace, (d: Doc) => If(d.birthPlaces != [])),
     Field(Nationality, (d: Doc) => If(exists i :: 0 <= i < |d.countries| && d.countries[i].kind in {NationalityOf, CitizenshipOf})),
     Field(PassportNo, (d: Doc) => If(HasId(d, {Passport}))),
     Field(NationalIdNo, (d: Doc) => If(HasId(d, {NationalId}))),
     Field(Gender, (d: Doc) => If(Given(d.gender)))]
  }

  function OrganizationFields(): seq<Field> {
    [Field(CountryGiven, (d: Doc) => If(HasCountry(d))),
     Field(RegistrationId, (d: Doc) => If(HasId(d, {Registration, Tax, Lei, Swift}))),
     Field(LeiCode, (d: Doc) => If(HasId(d, {Lei}))),
     Field(OwnershipLink, (d: Doc) => If(d.relationships != 0))]
  }

  function VesselFields(): seq<Field> {
    [Field(ImoNumber, (d: Doc) => If(HasId(d, {Imo}))),
     Field(ImoChecked, (d: Doc) => If(exists i :: 0 <= i < |d.identifiers| && d.identifiers[i].kind == Imo && d.identifiers[i].checksumValid)),
     Field(MmsiNumber, (d: Doc) => If(HasId(d, {Mmsi}))),
     Field(CallSignGiven, (d: Doc) => If(HasId(d, {CallSign}))),
     Field(Flag, (d: Doc) => If(d.vessel.Some? && (Given(d.vessel.value.flag) || Given(d.vessel.value.flagRaw)))),
     Field(FormerFlag, (d: Doc) => If(d.vessel.Some? && d.vessel.value.formerFlags != 0)),
     Field(VesselType, (d: Doc) => If(d.vessel.Some? && Given(d.vessel.value.vesselType))),
     Field(BuildYear, (d: Doc) => If(d.vessel.Some? && d.vessel.value.buildYear.Some? && d.vessel.value.buildYear.value != 0)),
     Field(OwnerLink, (d: Doc) => If((d.vessel.Some? && Given(d.vessel.value.ownerOperator)) || d.relationships != 0))]
  }

  function AircraftFields(): seq<Field> {
    [Field(Msn, (d: Doc) => If(HasId(d, {AircraftMsn}))),
     Field(TailNumber, (d: Doc) => If(HasId(d, {AircraftTail}))),
     Field(Model, (d: Doc) => If(d.aircraft.Some? && Given(d.aircraft.value.model))),
     Field(Operator, (d: Doc) => If(d.aircraft.Some? && Given(d.aircraft.value.operatorRaw)))]
  }

  /** FIELDS. */
  function SourceFields(g: Group): seq<Field> {
    match g
    case Common => CommonFields()
    case Of(Person) => PersonFields()
    case Of(Organization) => OrganizationFields()
    case Of(Vessel) => VesselFields()
    case Of(Aircraft) => AircraftFields()
    case Of(Unknown) => []
  }

  // ---------------------------------------------------------------------------------------------
  // Counters
  // ---------------------------------------------------------------------------------------------

  /** A counter the fold keeps; a person without any birth date has no precision. */
  datatype Metric =
    | Records
    | OfType(entityType: EntityType)
    | Filled(entityType: EntityType, name: FieldName)
    | Aliases
    | WeakAliases
    | UnknownAliases
    | ImoSeen
    | ImoValid
    | LeiSeen
    | LeiValid
    | UnmappedValues
    | DobPrecision(precision: Option<Precision>)
    | Errors

  function Times(c: bool): nat { if c then 1 else 0 }

  /** How often a group's predicates count the field `name` for a document. */
  function GroupHits(group: seq<Field>, name: FieldName, d: Doc): nat {
    if group == [] then 0
    else GroupHits(group[..|group| - 1], name, d) + Times(group[|group| - 1].name == name && group[|group| - 1].test(d) == Hit)
  }

  function Hits(group: seq<Field>, et: EntityType, name: FieldName, d: Doc): nat {
    if et == d.entityType then GroupHits(group, name, d) else 0
  }

  function GroupErrors(group: seq<Field>, d: Doc): nat {
    if group == [] then 0
    else GroupErrors(group[..|group| - 1], d) + Times(group[|group| - 1].test(d) == Malformed)
  }

  function CountAliases(names: seq<Name>, which: set<Strength>): nat {
    if names == [] then 0
    else CountAliases(names[..|names| - 1], which) + Times(names[|names| - 1].kind != Primary && names[|names| - 1].strength in which)
  }

  function CountIds(ids: seq<Identifier>, kind: IdKind, validOnly: bool): nat {
    if ids == [] then 0
    else CountIds(ids[..|ids| - 1], kind, validOnly)
         + Times(ids[|ids| - 1].kind == kind && (validOnly ==> ids[|ids| - 1].checksumValid))
  }

  predicate UnmappedId(x: Identifier) { Given(x.countryRaw) && !(x.country.Some? && x.country.value != "") }

  function CountUnmapped(ids: seq<Identifier>): nat {
    if ids == [] then 0 else CountUnmapped(ids[..|ids| - 1]) + Times(UnmappedId(ids[|ids| - 1]))
  }

  /** `str.strip` on ASCII. */
  predicate IsSpace(c: char) { c == ' ' || '\t' <= c <= '\r' || '\U{1C}' <= c <= '\U{1F}' }

  function Trimmed(s: string): string {
    if s != "" && IsSpace(s[0]) then Trimmed(s[1..])
    else if s != "" && IsSpace(s[|s| - 1]) then Trimmed(s[..|s| - 1])
    else s
  }

  /** A country the normaliser could not map, other than one the publisher marks as unknown. */
  predicate UnmappedCountry(country: Option<Text>, raw: Option<Text>) {
    Given(raw) && !Given(country) && I.Upper(Trimmed(raw.value.chars)) !in {"UNKNOWN", "00"}
  }

  function CountAddresses(xs: seq<Address>): nat {
    if xs == [] then 0 else CountAddresses(xs[..|xs| - 1]) + Times(UnmappedCountry(xs[|xs| - 1].country, xs[|xs| - 1].countryRaw))
  }

  function CountCountries(xs: seq<Country>): nat {
    if xs == [] then 0 else CountCountries(xs[..|xs| - 1]) + Times(UnmappedCountry(xs[|xs| - 1].country, xs[|xs| - 1].countryRaw))
  }

  function CountPlaces(xs: seq<Place>): nat {
    if xs == [] then 0 else CountPlaces(xs[..|xs| - 1]) + Times(UnmappedCountry(xs[|xs| - 1].country, xs[|xs| - 1].countryRaw))
  }

  /** The best precision among a person's birth dates. */
  function Best(births: seq<Precision>): Option<Precision> {
    if Day in births then Some(Day)
    else if Month in births then Some(Month)
    else if Year in births then Some(Year)
    else if Range in births then Some(Range)
    else if Unparsed in births then Some(Unparsed)
    else None
  }

  /** What one document adds to a counter. */
  function Adds(table: Table, m: Metric, d: Doc): nat {
    match m
    case Records => 1
    case OfType(et) => Times(d.entityType == et)
    case Filled(et, name) => Hits(table(Common), et, name, d) + Hits(table(Of(et)), et, name, d)
    case Aliases => CountAliases(d.names, {Strong, Weak, UnknownStrength})
    case WeakAliases => CountAliases(d.names, {Weak})
    case UnknownAliases => CountAliases(d.names, {UnknownStrength})
    case ImoSeen => CountIds(d.identifiers, Imo, false)
    case ImoValid => CountIds(d.identifiers, Imo, true)
    case LeiSeen => CountIds(d.identifiers, Lei, false)
    case LeiValid => CountIds(d.identifiers, Lei, true)
    case UnmappedValues =>
      CountUnmapped(d.identifiers) + CountAddresses(d.addresses) + CountCountries(d.countries) + CountPlaces(d.birthPlaces)
    case DobPrecision(p) => Times(d.entityType == Person && Best(d.births) == p)
    case Errors => GroupErrors(table(Common), d) + GroupErrors(table(Of(d.entityType)), d)
  }

  /** The counter over a whole list. */
  function Total(table: Table, m: Metric, docs: seq<Doc>): nat {
    if docs == [] then 0 else Total(table, m, docs[..|docs| - 1]) + Adds(table, m, docs[|docs| - 1])
  }

  /** How many of the seen are not valid. */
  function Shortfall(table: Table, seen: Metric, valid: Metric, docs: seq<Doc>): nat {
    var s, v := Total(table, seen, docs), Total(table, valid, docs);
    if v <= s then s - v else 0
  }

  // ---------------------------------------------------------------------------------------------
  // Order does not matter
  // ---------------------------------------------------------------------------------------------

  lemma {:induction false} TotalConcat(table: Table, m: Metric, a: seq<Doc>, b: seq<Doc>)
    ensures Total(table, m, a + b) == Total(table, m, a) + Total(table, m, b)
    decreases |b|
  {
    if b == [] {
      assert a + b == a;
    } else {
      TotalConcat(table, m, a, b[..|b| - 1]);
      assert (a + b)[..|a + b| - 1] == a + b[..|b| - 1];
    }
  }

  lemma {:induction false} TotalOne(table: Table, m: Metric, d: Doc)
    ensures Total(table, m, [d]) == Adds(table, m, d)
  {
    assert [d][..0] == [];
  }

  function Without(docs: seq<Doc>, i: nat): seq<Doc>
    requires i < |docs|
  {
    docs[..i] + docs[i + 1..]
  }

  lemma {:induction false} TotalWithout(table: Table, m: Metric, docs: seq<Doc>, i: nat)
    requires i < |docs|
    ensures Total(table, m, docs) == Total(table, m, Without(docs, i)) + Adds(table, m, docs[i])
  {
    hide Adds;
    assert docs == docs[..i] + [docs[i]] + docs[i + 1..];
    TotalConcat(table, m, docs[..i], docs[i + 1..]);
    TotalConcat(table, m, docs[..i] + [docs[i]], docs[i + 1..]);
    TotalConcat(table, m, docs[..i], [docs[i]]);
    TotalOne(table, m, docs[i]);
  }

  lemma {:induction false} MultisetWithout(docs: seq<Doc>, i: nat)
    requires i < |docs|
    ensures multiset(Without(docs, i)) == multiset(docs) - multiset{docs[i]}
  {
    assert docs == docs[..i] + [docs[i]] + docs[i + 1..];
  }

  /** Every counter depends on which documents there are, not on their order. */
  lemma {:induction false} OrderDoesNotMatter(table: Table, m: Metric, a: seq<Doc>, b: seq<Doc>)
    requires multiset(a) == multiset(b)
    ensures Total(table, m, a) == Total(table, m, b)
    decreases |a|
  {
    hide Adds, Total;
    assert |a| == |multiset(a)| == |multiset(b)| == |b|;
    if a != [] {
      var n := |a| - 1;
      assert a[n] in multiset(b);
      var i :| 0 <= i < |b| && b[i] == a[n];
      TotalWithout(table, m, a, n);
      TotalWithout(table, m, b, i);
      MultisetWithout(a, n);
      MultisetWithout(b, i);
      OrderDoesNotMatter(table, m, Without(a, n), Without(b, i));
    } else {
      assert a == b;
    }
  }

  // ---------------------------------------------------------------------------------------------
  // Shares
  // ---------------------------------------------------------------------------------------------

  lemma {:induction false} TotalMonotone(table: Table, m: Metric, m': Metric, docs: seq<Doc>)
    requires forall d :: d in docs ==> Adds(table, m, d) <= Adds(table, m', d)
    ensures Total(table, m, docs) <= Total(table, m', docs)
  {
    if docs != [] {
      TotalMonotone(table, m, m', docs[..|docs| - 1]);
    }
  }

  ghost predicate DistinctNames(group: seq<Field>) {
    forall i, j :: 0 <= i < j < |group| ==> group[i].name != group[j].name
  }

  /** No field is named twice for a type, the fields common to all types included. */
  ghost predicate NamedOnce(table: Table, et: EntityType) { DistinctNames(table(Common) + table(Of(et))) }

  /** The table in use lists the fields in one order, type after type. */
  function Rank(name: FieldName): nat {
    match name
    case Alias => 0 case AnyAddress => 1 case AddressCountry => 2 case Street => 3 case ListedOn => 4 case Program => 5
    case Measures => 6 case Reason => 7 case LegalEvidence => 8
    case Dob => 9 case DobFull => 10 case BirthPlace => 11 case Nationality => 12 case PassportNo => 13 case NationalIdNo => 14
    case Gender => 15
    case CountryGiven => 16 case RegistrationId => 17 case LeiCode => 18 case OwnershipLink => 19
    case ImoNumber => 20 case ImoChecked => 21 case MmsiNumber => 22 case CallSignGiven => 23 case Flag => 24 case FormerFlag => 25
    case VesselType => 26 case BuildYear => 27 case OwnerLink => 28
    case Msn => 29 case TailNumber => 30 case Model => 31 case Operator => 32
  }

  ghost predicate RankedFrom(group: seq<Field>, first: nat) {
    forall i :: 0 <= i < |group| ==> Rank(group[i].name) == first + i
  }

  lemma {:induction false} CommonRanked()
    ensures RankedFrom(CommonFields(), 0) && |CommonFields()| == 9
  {
  }

  lemma {:induction false} PersonRanked()
    ensures RankedFrom(PersonFields(), 9)
  {
  }

  lemma {:induction false} OrganizationRanked()
    ensures RankedFrom(OrganizationFields(), 16)
  {
  }

  lemma {:induction false} VesselRanked()
    ensures RankedFrom(VesselFields(), 20)
  {
  }

  lemma {:induction false} AircraftRanked()
    ensures RankedFrom(AircraftFields(), 29)
  {
  }

  /** Every type's own fields come after the common ones. */
  lemma {:induction false} OwnRanked(et: EntityType) returns (first: nat)
    ensures 9 <= first && RankedFrom(SourceFields(Of(et)), first)
  {
    hide PersonFields, OrganizationFields, VesselFields, AircraftFields, Rank;
    match et {
      case Person => PersonRanked(); first := 9;
      case Organization => OrganizationRanked(); first := 16;
      case Vessel => VesselRanked(); first := 20;
      case Aircraft => AircraftRanked(); first := 29;
      case Unknown => first := 9;
    }
  }

  /** The table in use names every field once. */
  lemma {:induction false} SourceFieldsNamedOnce(et: EntityType)
    ensures NamedOnce(SourceFields, et)
  {
    hide CommonFields, PersonFields, OrganizationFields, VesselFields, AircraftFields, Rank;
    var common: seq<Field>, own: seq<Field> := CommonFields(), SourceFields(Of(et));
    assert SourceFields(Common) == common;
    hide SourceFields;
    CommonRanked();
    var first := OwnRanked(et);
    forall i, j | 0 <= i < j < |common + own| ensures Rank((common + own)[i].name) != Rank((common + own)[j].name) {
    }
  }

  lemma {:induction false} HitsConcat(a: seq<Field>, b: seq<Field>, name: FieldName, d: Doc)
    ensures GroupHits(a + b, name, d) == GroupHits(a, name, d) + GroupHits(b, name, d)
    decreases |b|
  {
    if b == [] {
      assert a + b == a;
    } else {
      HitsConcat(a, b[..|b| - 1], name, d);
      assert (a + b)[..|a + b| - 1] == a + b[..|b| - 1];
    }
  }

  /** Distinct names: a document hits a field at most once, and not at all where the name does not occur. */
  lemma {:induction false} HitOnce(group: seq<Field>, name: FieldName, d: Doc)
    requires DistinctNames(group)
    ensures GroupHits(group, name, d) <= 1
    ensures (forall i :: 0 <= i < |group| ==> group[i].name != name) ==> GroupHits(group, name, d) == 0
  {
    if group != [] {
      HitOnce(group[..|group| - 1], name, d);
    }
  }

  function FillRate(table: Table, docs: seq<Doc>, et: EntityType, name: FieldName): Option<real> {
    if Total(table, OfType(et), docs) == 0 then None
    else Some(Total(table, Filled(et, name), docs) as real / Total(table, OfType(et), docs) as real)
  }

  lemma {:induction false} ShareInUnit(part: nat, whole: nat)
    requires part <= whole && 0 < whole
    ensures 0.0 <= part as real / whole as real <= 1.0
  {
  }

  lemma {:induction false} FilledAtMostOnce(table: Table, et: EntityType, name: FieldName, d: Doc)
    requires NamedOnce(table, et)
    ensures Adds(table, Filled(et, name), d) <= Adds(table, OfType(et), d)
  {
    HitsConcat(table(Common), table(Of(et)), name, d);
    HitOnce(table(Common) + table(Of(et)), name, d);
  }

  /** With every field named once, a fill rate is a share: between none and all of the type's documents. */
  lemma {:induction false} FillRateIsAShare(table: Table, docs: seq<Doc>, et: EntityType, name: FieldName)
    requires NamedOnce(table, et)
    ensures FillRate(table, docs, et, name).Some? ==> 0.0 <= FillRate(table, docs, et, name).value <= 1.0
    ensures FillRate(table, docs, et, name).None? <==> forall d :: d in docs ==> d.entityType != et
  {
    hide NamedOnce, Adds;
    forall d | d in docs ensures Adds(table, Filled(et, name), d) <= Adds(table, OfType(et), d) {
      FilledAtMostOnce(table, et, name, d);
    }
    TotalMonotone(table, Filled(et, name), OfType(et), docs);
    NoneOfType(table, docs, et);
    if Total(table, OfType(et), docs) != 0 {
      ShareInUnit(Total(table, Filled(et, name), docs), Total(table, OfType(et), docs));
    }
  }

  /** So every fill rate the service computes is a share. */
  lemma {:induction false} SourceFillRateIsAShare(docs: seq<Doc>, et: EntityType, name: FieldName)
    ensures FillRate(SourceFields, docs, et, name).Some? ==> 0.0 <= FillRate(SourceFields, docs, et, name).value <= 1.0
  {
    SourceFieldsNamedOnce(et);
    FillRateIsAShare(SourceFields, docs, et, name);
  }

  lemma {:induction false} NoneOfType(table: Table, docs: seq<Doc>, et: EntityType)
    ensures Total(table, OfType(et), docs) == 0 <==> forall d :: d in docs ==> d.entityType != et
  {
    if docs != [] {
      var n := |docs| - 1;
      NoneOfType(table, docs[..n], et);
      assert forall d :: d in docs <==> d in docs[..n] || d == docs[n];
    }
  }

  lemma {:induction false} AliasSubset(names: seq<Name>, a: set<Strength>, b: set<Strength>)
    requires a <= b
    ensures CountAliases(names, a) <= CountAliases(names, b)
  {
    if names != [] {
      AliasSubset(names[..|names| - 1], a, b);
    }
  }

  lemma {:induction false} ValidIdsAreIds(ids: seq<Identifier>, kind: IdKind)
    ensures CountIds(ids, kind, true) <= CountIds(ids, kind, false)
  {
    if ids != [] {
      ValidIdsAreIds(ids[..|ids| - 1], kind);
    }
  }

  /** Weak aliases, aliases of unknown quality and valid checksums are parts of what they are divided by. */
  lemma {:induction false} PartsAreParts(table: Table, docs: seq<Doc>)
    ensures Total(table, WeakAliases, docs) <= Total(table, Aliases, docs)
    ensures Total(table, UnknownAliases, docs) <= Total(table, Aliases, docs)
    ensures Total(table, ImoValid, docs) <= Total(table, ImoSeen, docs)
    ensures Total(table, LeiValid, docs) <= Total(table, LeiSeen, docs)
  {
    forall d | d in docs
      ensures Adds(table, WeakAliases, d) <= Adds(table, Aliases, d) && Adds(table, UnknownAliases, d) <= Adds(table, Aliases, d)
      ensures Adds(table, ImoValid, d) <= Adds(table, ImoSeen, d) && Adds(table, LeiValid, d) <= Adds(table, LeiSeen, d)
    {
      DocPartsAreParts(table, d);
    }
    hide Adds, Total;
    TotalMonotone(table, WeakAliases, Aliases, docs);
    TotalMonotone(table, UnknownAliases, Aliases, docs);
    TotalMonotone(table, ImoValid, ImoSeen, docs);
    TotalMonotone(table, LeiValid, LeiSeen, docs);
  }

  lemma {:induction false} DocPartsAreParts(table: Table, d: Doc)
    ensures Adds(table, WeakAliases, d) <= Adds(table, Aliases, d) && Adds(table, UnknownAliases, d) <= Adds(table, Aliases, d)
    ensures Adds(table, ImoValid, d) <= Adds(table, ImoSeen, d) && Adds(table, LeiValid, d) <= Adds(table, LeiSeen, d)
  {
    hide CountAliases, CountIds;
    AliasSubset(d.names, {Weak}, {Strong, Weak, UnknownStrength});
    AliasSubset(d.names, {UnknownStrength}, {Strong, Weak, UnknownStrength});
    ValidIdsAreIds(d.identifiers, Imo);
    ValidIdsAreIds(d.identifiers, Lei);
  }

  /** Every person falls into exactly one precision class, so the date-precision shares add up to one. */
  lemma {:induction false} PrecisionsPartitionPersons(table: Table, docs: seq<Doc>)
    ensures Total(table, DobPrecision(Some(Day)), docs) + Total(table, DobPrecision(Some(Month)), docs)
            + Total(table, DobPrecision(Some(Year)), docs) + Total(table, DobPrecision(Some(Range)), docs)
            + Total(table, DobPrecision(Some(Unparsed)), docs) + Total(table, DobPrecision(None), docs)
            == Total(table, OfType(Person), docs)
  {
    if docs != [] {
      PrecisionsPartitionPersons(table, docs[..|docs| - 1]);
    }
  }

  /** Only the group of the document's own type counts for it. */
  lemma {:induction false} OwnGroup(table: Table, et: EntityType, name: FieldName, d: Doc)
    ensures Hits(table(Of(d.entityType)), et, name, d) == Hits(table(Of(et)), et, name, d)
  {
  }

  // ---------------------------------------------------------------------------------------------
  // The fold
  // ---------------------------------------------------------------------------------------------

  function Lookup<K>(m: map<K, nat>, k: K): nat { if k in m then m[k] else 0 }

  function Bumped<K>(m: map<K, nat>, k: K): map<K, nat> { m[k := Lookup(m, k) + 1] }

  /** The counters as one value. */
  datatype Counters = Counters(
    records: nat, byType: map<EntityType, nat>, fills: map<(EntityType, FieldName), nat>, aliases: nat, weak: nat, unknown: nat,
    imoSeen: nat, imoValid: nat, leiSeen: nat, leiValid: nat, unmapped: nat, dob: map<Option<Precision>, nat>, errors: nat)

  function Value(c: Counters, m: Metric): nat {
    match m
    case Records => c.records
    case OfType(et) => Lookup(c.byType, et)
    case Filled(et, name) => Lookup(c.fills, (et, name))
    case Aliases => c.aliases
    case WeakAliases => c.weak
    case UnknownAliases => c.unknown
    case ImoSeen => c.imoSeen
    case ImoValid => c.imoValid
    case LeiSeen => c.leiSeen
    case LeiValid => c.leiValid
    case UnmappedValues => c.unmapped
    case DobPrecision(p) => Lookup(c.dob, p)
    case Errors => c.errors
  }

  /** Every counter is its total over the documents. */
  ghost predicate Counted(c: Counters, table: Table, docs: seq<Doc>) {
    forall m :: Value(c, m) == Total(table, m, docs)
  }

  /** What the document adds, counter by counter, is what `Adds` says. */
  ghost predicate Next(c: Counters, c': Counters, table: Table, d: Doc) {
    && c'.records == c.records + Adds(table, Records, d)
    && (forall et :: Lookup(c'.byType, et) == Lookup(c.byType, et) + Adds(table, OfType(et), d))
    && (forall et, name :: Lookup(c'.fills, (et, name)) == Lookup(c.fills, (et, name)) + Adds(table, Filled(et, name), d))
    && c'.aliases == c.aliases + Adds(table, Aliases, d)
    && c'.weak == c.weak + Adds(table, WeakAliases, d) && c'.unknown == c.unknown + Adds(table, UnknownAliases, d)
    && c'.imoSeen == c.imoSeen + Adds(table, ImoSeen, d) && c'.imoValid == c.imoValid + Adds(table, ImoValid, d)
    && c'.leiSeen == c.leiSeen + Adds(table, LeiSeen, d) && c'.leiValid == c.leiValid + Adds(table, LeiValid, d)
    && c'.unmapped == c.unmapped + Adds(table, UnmappedValues, d)
    && (forall p :: Lookup(c'.dob, p) == Lookup(c.dob, p) + Adds(table, DobPrecision(p), d))
    && c'.errors == c.errors + Adds(table, Errors, d)
  }

  lemma {:induction false} OneMoreDoc(c: Counters, c': Counters, table: Table, docs: seq<Doc>, d: Doc)
    requires Counted(c, table, docs) && Next(c, c', table, d)
    ensures Counted(c', table, docs + [d])
  {
    hide Adds, Total;
    forall m ensures Value(c', m) == Total(table, m, docs + [d]) {
      assert Value(c, m) == Total(table, m, docs);
      TotalNext(table, m, docs, d);
      match m {
        case OfType(et) => assert Adds(table, OfType(et), d) == Adds(table, m, d);
        case Filled(et, name) => assert Adds(table, Filled(et, name), d) == Adds(table, m, d);
        case DobPrecision(p) => assert Adds(table, DobPrecision(p), d) == Adds(table, m, d);
        case _ =>
      }
    }
  }

  lemma {:induction false} TotalNext(table: Table, m: Metric, docs: seq<Doc>, d: Doc)
    ensures Total(table, m, docs + [d]) == Total(table, m, docs) + Adds(table, m, d)
  {
    hide Adds;
    assert (docs + [d])[..|docs|] == docs;
  }

  class VersionMetrics {
    var recordCount: nat
    var countsByType: map<EntityType, nat>
    var fillCounts: map<(EntityType, FieldName), nat>
    var aliasesTotal: nat
    var aliasesWeak: nat
    var aliasesUnknown: nat
    var imoTotal: nat
    var imoValid: nat
    var leiTotal: nat
    var leiValid: nat
    var unmapped: nat
    var dobPrecision: map<Option<Precision>, nat>
    var metricErrors: nat

    constructor ()
      ensures forall table :: Counted(Contents(), table, [])
    {
      recordCount, countsByType, fillCounts := 0, map[], map[];
      aliasesTotal, aliasesWeak, aliasesUnknown := 0, 0, 0;
      imoTotal, imoValid, leiTotal, leiValid := 0, 0, 0, 0;
      unmapped, dobPrecision, metricErrors := 0, map[], 0;
    }

    function Contents(): Counters
      reads this
    {
      Counters(recordCount, countsByType, fillCounts, aliasesTotal, aliasesWeak, aliasesUnknown, imoTotal, imoValid, leiTotal,
               leiValid, unmapped, dobPrecision, metricErrors)
    }

    method AddGroup(group: seq<Field>, d: Doc)
      modifies `fillCounts, `metricErrors
      ensures forall et, name :: Lookup(fillCounts, (et, name)) == Lookup(old(fillCounts), (et, name)) + Hits(group, et, name, d)
      ensures metricErrors == old(metricErrors) + GroupErrors(group, d)
    {
      assert group[..0] == [];
      for i := 0 to |group|
        invariant forall et, name ::
                    Lookup(fillCounts, (et, name)) == Lookup(old(fillCounts), (et, name)) + Hits(group[..i], et, name, d)
        invariant metricErrors == old(metricErrors) + GroupErrors(group[..i], d)
      {
        assert group[..i + 1][..i] == group[..i];
        var verdict := group[i].test(d);
        if verdict == Malformed {
          metricErrors := metricErrors + 1;
          continue;
        }
        if verdict == Hit {
          fillCounts := Bumped(fillCounts, (d.entityType, group[i].name));
        }
      }
      assert group[..|group|] == group;
    }

    method AddNames(names: seq<Name>)
      modifies `aliasesTotal, `aliasesWeak, `aliasesUnknown
      ensures aliasesTotal == old(aliasesTotal) + CountAliases(names, {Strong, Weak, UnknownStrength})
      ensures aliasesWeak == old(aliasesWeak) + CountAliases(names, {Weak})
      ensures aliasesUnknown == old(aliasesUnknown) + CountAliases(names, {UnknownStrength})
    {
      for i := 0 to |names|
        invariant aliasesTotal == old(aliasesTotal) + CountAliases(names[..i], {Strong, Weak, UnknownStrength})
        invariant aliasesWeak == old(aliasesWeak) + CountAliases(names[..i], {Weak})
        invariant aliasesUnknown == old(aliasesUnknown) + CountAliases(names[..i], {UnknownStrength})
      {
        assert names[..i + 1][..i] == names[..i];
        if names[i].kind != Primary {
          aliasesTotal := aliasesTotal + 1;
          if names[i].strength == Weak {
            aliasesWeak := aliasesWeak + 1;
          } else if names[i].strength == UnknownStrength {
            aliasesUnknown := aliasesUnknown + 1;
          }
        }
      }
      assert names[..|names|] == names;
    }

    method AddIdentifiers(ids: seq<Identifier>)
      modifies `imoTotal, `imoValid, `leiTotal, `leiValid, `unmapped
      ensures imoTotal == old(imoTotal) + CountIds(ids, Imo, false) && imoValid == old(imoValid) + CountIds(ids, Imo, true)
      ensures leiTotal == old(leiTotal) + CountIds(ids, Lei, false) && leiValid == old(leiValid) + CountIds(ids, Lei, true)
      ensures unmapped == old(unmapped) + CountUnmapped(ids)
    {
      hide UnmappedId;
      for i := 0 to |ids|
        invariant imoTotal == old(imoTotal) + CountIds(ids[..i], Imo, false) && imoValid == old(imoValid) + CountIds(ids[..i], Imo, true)
        invariant leiTotal == old(leiTotal) + CountIds(ids[..i], Lei, false) && leiValid == old(leiValid) + CountIds(ids[..i], Lei, true)
        invariant unmapped == old(unmapped) + CountUnmapped(ids[..i])
      {
        assert ids[..i + 1][..i] == ids[..i];
        var x := ids[i];
        if x.kind == Imo {
          imoTotal := imoTotal + 1;
          imoValid := imoValid + if x.checksumValid then 1 else 0;
        } else if x.kind == Lei {
          leiTotal := leiTotal + 1;
          leiValid := leiValid + if x.checksumValid then 1 else 0;
        }
        if UnmappedId(x) {
          unmapped := unmapped + 1;
        }
      }
      assert ids[..|ids|] == ids;
    }

    method AddAddresses(addresses: seq<Address>)
      modifies `unmapped
      ensures unmapped == old(unmapped) + CountAddresses(addresses)
    {
      hide UnmappedCountry;
      for i := 0 to |addresses|
        invariant unmapped == old(unmapped) + CountAddresses(addresses[..i])
      {
        assert addresses[..i + 1][..i] == addresses[..i];
        if UnmappedCountry(addresses[i].country, addresses[i].countryRaw) {
          unmapped := unmapped + 1;
        }
      }
      assert addresses[..|addresses|] == addresses;
    }

    method AddCountries(countries: seq<Country>)
      modifies `unmapped
      ensures unmapped == old(unmapped) + CountCountries(countries)
    {
      hide UnmappedCountry;
      for i := 0 to |countries|
        invariant unmapped == old(unmapped) + CountCountries(countries[..i])
      {
        assert countries[..i + 1][..i] == countries[..i];
        if UnmappedCountry(countries[i].country, countries[i].countryRaw) {
          unmapped := unmapped + 1;
        }
      }
      assert countries[..|countries|] == countries;
    }

    method AddBirthPlaces(places: seq<Place>)
      modifies `unmapped
      ensures unmapped == old(unmapped) + CountPlaces(places)
    {
      hide UnmappedCountry;
      for i := 0 to |places|
        invariant unmapped == old(unmapped) + CountPlaces(places[..i])
      {
        assert places[..i + 1][..i] == places[..i];
        if UnmappedCountry(places[i].country, places[i].countryRaw) {
          unmapped := unmapped + 1;
        }
      }
      assert places[..|places|] == places;
    }

    method AddFields(table: Table, d: Doc)
      modifies `fillCounts, `metricErrors
      ensures forall et, name ::
                Lookup(fillCounts, (et, name)) == Lookup(old(fillCounts), (et, name)) + Adds(table, Filled(et, name), d)
      ensures metricErrors == old(metricErrors) + Adds(table, Errors, d)
    {
      hide Hits, GroupErrors;
      AddGroup(table(Common), d);
      AddGroup(table(Of(d.entityType)), d);
      forall et, name ensures Hits(table(Of(d.entityType)), et, name, d) == Hits(table(Of(et)), et, name, d) {
        OwnGroup(table, et, name, d);
      }
    }

    method AddTypeAndDate(table: Table, d: Doc)
      modifies `recordCount, `countsByType, `dobPrecision
      ensures recordCount == old(recordCount) + Adds(table, Records, d)
      ensures forall et :: Lookup(countsByType, et) == Lookup(old(countsByType), et) + Adds(table, OfType(et), d)
      ensures forall p :: Lookup(dobPrecision, p) == Lookup(old(dobPrecision), p) + Adds(table, DobPrecision(p), d)
    {
      recordCount := recordCount + 1;
      countsByType := Bumped(countsByType, d.entityType);
      if d.entityType == Person {
        dobPrecision := Bumped(dobPrecision, Best(d.births));
      }
    }

    method AddNamesOf(table: Table, d: Doc)
      modifies `aliasesTotal, `aliasesWeak, `aliasesUnknown
      ensures aliasesTotal == old(aliasesTotal) + Adds(table, Aliases, d)
      ensures aliasesWeak == old(aliasesWeak) + Adds(table, WeakAliases, d)
      ensures aliasesUnknown == old(aliasesUnknown) + Adds(table, UnknownAliases, d)
    {
      hide CountAliases;
      AddNames(d.names);
    }

    method AddIdentifiersAndPlaces(table: Table, d: Doc)
      modifies `imoTotal, `imoValid, `leiTotal, `leiValid, `unmapped
      ensures imoTotal == old(imoTotal) + Adds(table, ImoSeen, d) && imoValid == old(imoValid) + Adds(table, ImoValid, d)
      ensures leiTotal == old(leiTotal) + Adds(table, LeiSeen, d) && leiValid == old(leiValid) + Adds(table, LeiValid, d)
      ensures unmapped == old(unmapped) + Adds(table, UnmappedValues, d)
    {
      hide CountIds, CountUnmapped, CountAddresses, CountCountries, CountPlaces;
      AddIdentifiers(d.identifiers);
      AddAddresses(d.addresses);
      AddCountries(d.countries);
      AddBirthPlaces(d.birthPlaces);
    }

    method AddCounts(table: Table, d: Doc)
      modifies this
      ensures Next(old(Contents()), Contents(), table, d)
    {
      hide Adds, Lookup;
      AddTypeAndDate(table, d);
      AddFields(table, d);
      AddNamesOf(table, d);
      AddIdentifiersAndPlaces(table, d);
    }

    /** One document more in every counter. */
    method Add(table: Table, d: Doc, ghost docs: seq<Doc>)
      requires Counted(Contents(), table, docs)
      modifies this
      ensures Counted(Contents(), table, docs + [d])
    {
      hide Counted, Next;
      ghost var before := Contents();
      AddCounts(table, d);
      OneMoreDoc(before, Contents(), table, docs, d);
    }

    /** `fill_rate`: none for a type that does not occur. */
    method FillRateOf(table: Table, ghost docs: seq<Doc>, et: EntityType, name: FieldName) returns (rate: Option<real>)
      requires Counted(Contents(), table, docs)
      ensures rate == FillRate(table, docs, et, name)
    {
      assert Value(Contents(), OfType(et)) == Total(table, OfType(et), docs);
      assert Value(Contents(), Filled(et, name)) == Total(table, Filled(et, name), docs);
      var n := Lookup(countsByType, et);
      if n == 0 {
        return None;
      }
      rate := Some(Lookup(fillCounts, (et, name)) as real / n as real);
    }
  }

  /** `compute`: every counter is its total over the documents. */
  method Compute(table: Table, docs: seq<Doc>) returns (m: VersionMetrics)
    ensures fresh(m) && Counted(m.Contents(), table, docs)
  {
    m := new VersionMetrics();
    for i := 0 to |docs|
      invariant fresh(m) && Counted(m.Contents(), table, docs[..i])
    {
      assert docs[..i + 1] == docs[..i] + [docs[i]];
      m.Add(table, docs[i], docs[..i]);
    }
    assert docs[..|docs|] == docs;
  }
}
