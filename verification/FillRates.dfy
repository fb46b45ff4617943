/**
 What the quality counters mean. A fill rate is the number of records of a type that have what the field asks for, over
 the number of records of that type; the field table and the fold over it come to exactly that.
 */
module FillRates {
  import opened Base
  import opened Canonical
  import opened Metrics
  import I = Identifiers

  /** A text is there and not empty. */
  predicate Present(t: Option<Text>) { t.Some? && 0 < |t.value.chars| }

  ghost predicate Identified(d: Doc, kinds: set<IdKind>) { exists x :: x in d.identifiers && x.kind in kinds }

  ghost predicate HasAnyway(d: Doc, name: FieldName) {
    match name
    case Alias => exists n :: n in d.names && n.kind in {Aka, Fka, Nka, OtherName}
    case AnyAddress => 0 < |d.addresses|
    case AddressCountry => exists a :: a in d.addresses && Present(a.country)
    case Street => exists a :: a in d.addresses && Present(a.street)
    case ListedOn => exists l :: l in d.listings && l.listedOn.Some?
    case Program => exists l :: l in d.listings && Present(l.program)
    case Measures => exists l :: l in d.listings && 0 < l.measures
    case Reason => exists l :: l in d.listings && Present(l.reason)
    case LegalEvidence => exists l :: l in d.listings && (Present(l.legalBasis) || Present(l.evidenceUrl))
    case _ => false
  }

  ghost predicate PersonHas(d: Doc, name: FieldName) {
    match name
    case Dob => exists p :: p in d.births && p in {Day, Month, Year, Range}
    case DobFull => exists p :: p in d.births && p == Day
    case BirthPlace => 0 < |d.birthPlaces|
    case Nationality => exists c :: c in d.countries && (c.kind == NationalityOf || c.kind == CitizenshipOf)
    case PassportNo => Identified(d, {Passport})
    case NationalIdNo => Identified(d, {NationalId})
    case Gender => Present(d.gender)
    case _ => false
  }

  ghost predicate OrganizationHas(d: Doc, name: FieldName) {
    match name
    case CountryGiven =>
      || (exists c :: c in d.countries && (Present(c.country) || Present(c.countryRaw)))
      || (exists a :: a in d.addresses && (Present(a.country) || Present(a.countryRaw)))
    case RegistrationId => Identified(d, {Registration, Tax, Lei, Swift})
    case LeiCode => Identified(d, {Lei})
    case OwnershipLink => 0 < d.relationships
    case _ => false
  }

  ghost predicate VesselHas(d: Doc, name: FieldName) {
    match name
    case ImoNumber => Identified(d, {Imo})
    case ImoChecked => exists x :: x in d.identifiers && x.kind == Imo && x.checksumValid
    case MmsiNumber => Identified(d, {Mmsi})
    case CallSignGiven => Identified(d, {CallSign})
    case Flag => d.vessel.Some? && (Present(d.vessel.value.flag) || Present(d.vessel.value.flagRaw))
    case FormerFlag => d.vessel.Some? && 0 < d.vessel.value.formerFlags
    case VesselType => d.vessel.Some? && Present(d.vessel.value.vesselType)
    case BuildYear => d.vessel.Some? && d.vessel.value.buildYear.Some? && d.vessel.value.buildYear.value != 0
    case OwnerLink => 0 < d.relationships || (d.vessel.Some? && Present(d.vessel.value.ownerOperator))
    case _ => false
  }

  ghost predicate AircraftHas(d: Doc, name: FieldName) {
    match name
    case Msn => Identified(d, {AircraftMsn})
    case TailNumber => Identified(d, {AircraftTail})
    case Model => d.aircraft.Some? && Present(d.aircraft.value.model)
    case Operator => d.aircraft.Some? && Present(d.aircraft.value.operatorRaw)
    case _ => false
  }

  /** The document has what the field asks for, and is of the field's type. */
  ghost predicate Has(d: Doc, name: FieldName) {
    || HasAnyway(d, name)
    || (d.entityType == Person && PersonHas(d, name))
    || (d.entityType == Organization && OrganizationHas(d, name))
    || (d.entityType == Vessel && VesselHas(d, name))
    || (d.entityType == Aircraft && AircraftHas(d, name))
  }

  // ---------------------------------------------------------------------------------------------
  // Group by group
  // ---------------------------------------------------------------------------------------------

  lemma {:induction false} RankInjective(a: FieldName, b: FieldName)
    ensures Rank(a) == Rank(b) ==> a == b
  {
  }

  /** A group listed in rank order counts a field by the predicate at its place. */
  lemma {:induction false} RankedHits(group: seq<Field>, first: nat, name: FieldName, d: Doc)
    requires RankedFrom(group, first)
    ensures GroupHits(group, name, d)
         == if first <= Rank(name) < first + |group| then Times(group[Rank(name) - first].test(d) == Hit) else 0
  {
    hide Rank;
    if group != [] {
      var n := |group| - 1;
      RankedHits(group[..n], first, name, d);
      RankInjective(group[n].name, name);
    }
  }

  /** At every place of the group stands the test of the field's meaning. */
  lemma {:induction false} CommonPlaces(d: Doc, k: nat)
    requires k < 9
    ensures k < |CommonFields()| && (CommonFields()[k].test(d) == Hit <==> HasAnyway(d, CommonFields()[k].name))
  {
  }

  lemma {:induction false} CommonMean(d: Doc, name: FieldName)
    ensures GroupHits(CommonFields(), name, d) == Times(HasAnyway(d, name))
  {
    CommonRanked();
    RankedHits(CommonFields(), 0, name, d);
    hide CommonFields, GroupHits;
    if Rank(name) < 9 {
      CommonPlaces(d, Rank(name));
      RankInjective(CommonFields()[Rank(name)].name, name);
    }
  }

  lemma {:induction false} ParsedBirth(d: Doc)
    ensures PersonFields()[0].test(d) == Hit <==> exists p :: p in d.births && p in {Day, Month, Year, Range}
  {
    assert PersonFields()[0].test(d) == If(exists i :: 0 <= i < |d.births| && d.births[i] != Unparsed);
    if i :| 0 <= i < |d.births| && d.births[i] != Unparsed {
      assert d.births[i] in d.births;
    }
  }

  lemma {:induction false} PersonMean(d: Doc, name: FieldName)
    ensures GroupHits(PersonFields(), name, d) == Times(PersonHas(d, name))
  {
    PersonRanked();
    RankedHits(PersonFields(), 9, name, d);
    match name {
      case Dob => ParsedBirth(d);
      case DobFull => assert PersonFields()[1].test(d) == If(Day in d.births);
      case _ =>
    }
  }

  lemma {:induction false} OrganizationMean(d: Doc, name: FieldName)
    ensures GroupHits(OrganizationFields(), name, d) == Times(OrganizationHas(d, name))
  {
    OrganizationRanked();
    RankedHits(OrganizationFields(), 16, name, d);
  }

  lemma {:induction false} VesselMean(d: Doc, name: FieldName)
    ensures GroupHits(VesselFields(), name, d) == Times(VesselHas(d, name))
  {
    VesselRanked();
    RankedHits(VesselFields(), 20, name, d);
  }

  lemma {:induction false} AircraftMean(d: Doc, name: FieldName)
    ensures GroupHits(AircraftFields(), name, d) == Times(AircraftHas(d, name))
  {
    AircraftRanked();
    RankedHits(AircraftFields(), 29, name, d);
  }

  // ---------------------------------------------------------------------------------------------
  // Counters count
  // ---------------------------------------------------------------------------------------------

  /** A document of the type adds one to a field's counter exactly when it has what the field asks for, any other nothing. */
  lemma {:induction false} FilledIsHas(et: EntityType, name: FieldName, d: Doc)
    ensures Adds(SourceFields, Filled(et, name), d) == Times(d.entityType == et && Has(d, name))
  {
    hide CommonFields, PersonFields, OrganizationFields, VesselFields, AircraftFields, GroupHits;
    hide HasAnyway, PersonHas, OrganizationHas, VesselHas, AircraftHas;
    if d.entityType == et {
      CommonMean(d, name);
      OwnMean(d, name);
      OneGroup(d, name);
    }
  }

  lemma {:induction false} OwnMean(d: Doc, name: FieldName)
    ensures GroupHits(SourceFields(Of(d.entityType)), name, d)
         == Times(|| (d.entityType == Person && PersonHas(d, name))
                  || (d.entityType == Organization && OrganizationHas(d, name))
                  || (d.entityType == Vessel && VesselHas(d, name))
                  || (d.entityType == Aircraft && AircraftHas(d, name)))
  {
    hide CommonFields, PersonFields, OrganizationFields, VesselFields, AircraftFields;
    hide HasAnyway, PersonHas, OrganizationHas, VesselHas, AircraftHas;
    PersonMean(d, name);
    OrganizationMean(d, name);
    VesselMean(d, name);
    AircraftMean(d, name);
  }

  /** No field is common to all types and of one type as well. */
  lemma {:induction false} OneGroup(d: Doc, name: FieldName)
    ensures HasAnyway(d, name) ==> !PersonHas(d, name) && !OrganizationHas(d, name) && !VesselHas(d, name) && !AircraftHas(d, name)
  {
  }

  /** The places of a list at which `p` holds. */
  ghost function Those<T>(xs: seq<T>, p: T -> bool): set<nat> { set i | 0 <= i < |xs| && p(xs[i]) }

  lemma {:induction false} OneMoreOfThose<T>(init: seq<T>, x: T, p: T -> bool)
    ensures |Those(init + [x], p)| == |Those(init, p)| + Times(p(x))
  {
    assert Those(init + [x], p) == Those(init, p) + (if p(x) then {|init|} else {});
  }

  /** A counter to which a document adds one exactly if `p` holds of it is the number of such documents. */
  lemma {:induction false} TotalCounts(m: Metric, docs: seq<Doc>, p: Doc -> bool)
    requires forall d :: Adds(SourceFields, m, d) == Times(p(d))
    ensures Total(SourceFields, m, docs) == |Those(docs, p)|
  {
    hide Adds, Those;
    if docs != [] {
      var n := |docs| - 1;
      TotalCounts(m, docs[..n], p);
      assert docs == docs[..n] + [docs[n]];
      OneMoreOfThose(docs[..n], docs[n], p);
    } else {
      NoneOfThose(p);
    }
  }

  lemma {:induction false} NoneOfThose<T>(p: T -> bool)
    ensures Those<T>([], p) == {}
  {
  }

  ghost function HasOf(et: EntityType, name: FieldName): Doc -> bool { (d: Doc) => d.entityType == et && Has(d, name) }
  ghost function IsOf(et: EntityType): Doc -> bool { (d: Doc) => d.entityType == et }
  ghost function BestIs(p: Option<Precision>): Doc -> bool { (d: Doc) => d.entityType == Person && IsBest(d.births, p) }

  /** The rate of a field among the records of a type is a share of counts; there is none without such records. */
  lemma {:induction false} FillRateIsAShareOfCounts(docs: seq<Doc>, et: EntityType, name: FieldName)
    ensures FillRate(SourceFields, docs, et, name)
         == if Those(docs, IsOf(et)) == {} then None
            else Some(|Those(docs, HasOf(et, name))| as real / |Those(docs, IsOf(et))| as real)
  {
    hide Has, Those, Total;
    forall d ensures Adds(SourceFields, Filled(et, name), d) == Times(HasOf(et, name)(d)) {
      FilledIsHas(et, name, d);
    }
    TotalCounts(Filled(et, name), docs, HasOf(et, name));
    TotalCounts(OfType(et), docs, IsOf(et));
  }

  function Coarseness(p: Precision): nat {
    match p case Day => 1 case Month => 2 case Year => 3 case Range => 4 case Unparsed => 5
  }

  /** The finest precision that occurs, none where there is no date at all. */
  ghost predicate IsBest(births: seq<Precision>, p: Option<Precision>) {
    if p.None? then births == []
    else p.value in births && forall q :: q in births ==> Coarseness(p.value) <= Coarseness(q)
  }

  lemma {:induction false} BestIsBest(births: seq<Precision>, p: Option<Precision>)
    ensures Best(births) == p <==> IsBest(births, p)
  {
    if births != [] {
      var q := births[0];
      assert q in births;
      assert q.Day? || q.Month? || q.Year? || q.Range? || q.Unparsed?;
      var best := Best(births);
      assert best.Some? && best.value in births;
      forall q | q in births ensures Coarseness(best.value) <= Coarseness(q) {
        assert q.Day? || q.Month? || q.Year? || q.Range? || q.Unparsed?;
      }
      if p.Some? && IsBest(births, p) {
        assert Coarseness(p.value) == Coarseness(best.value);
      }
    }
  }

  /** The counters of persons by precision count those whose best birth date is of that precision. */
  lemma {:induction false} PrecisionsCount(docs: seq<Doc>, p: Option<Precision>)
    ensures Total(SourceFields, DobPrecision(p), docs) == |Those(docs, BestIs(p))|
  {
    hide IsBest, Best, Those, Total;
    forall d ensures Adds(SourceFields, DobPrecision(p), d) == Times(BestIs(p)(d)) {
      BestIsBest(d.births, p);
    }
    TotalCounts(DobPrecision(p), docs, BestIs(p));
  }

  ghost function IdOf(kind: IdKind, validOnly: bool): Identifier -> bool {
    (x: Identifier) => x.kind == kind && (!validOnly || x.checksumValid)
  }

  ghost function AliasOf(which: set<Strength>): Name -> bool {
    (n: Name) => n.kind in {Aka, Fka, Nka, OtherName} && n.strength in which
  }

  /** Identifiers of a kind are counted, all of them or those with a valid checksum. */
  lemma {:induction false} IdsAreCounted(ids: seq<Identifier>, kind: IdKind, validOnly: bool)
    ensures CountIds(ids, kind, validOnly) == |Those(ids, IdOf(kind, validOnly))|
  {
    hide Those;
    if ids == [] {
      NoneOfThose(IdOf(kind, validOnly));
    } else {
      var n := |ids| - 1;
      IdsAreCounted(ids[..n], kind, validOnly);
      assert ids == ids[..n] + [ids[n]];
      OneMoreOfThose(ids[..n], ids[n], IdOf(kind, validOnly));
    }
  }

  /** Aliases are counted, all of them or those of one strength; the primary name is none. */
  lemma {:induction false} AliasesAreCounted(names: seq<Name>, which: set<Strength>)
    ensures CountAliases(names, which) == |Those(names, AliasOf(which))|
  {
    hide Those;
    if names == [] {
      NoneOfThose(AliasOf(which));
    } else {
      var n := |names| - 1;
      AliasesAreCounted(names[..n], which);
      assert names == names[..n] + [names[n]];
      OneMoreOfThose(names[..n], names[n], AliasOf(which));
    }
  }

  ghost function FailsOn(d: Doc): Field -> bool { (f: Field) => f.test(d) == Malformed }

  lemma {:induction false} FailuresAreCounted(group: seq<Field>, d: Doc)
    ensures GroupErrors(group, d) == |Those(group, FailsOn(d))|
  {
    hide Those;
    if group == [] {
      NoneOfThose(FailsOn(d));
    } else {
      var n := |group| - 1;
      FailuresAreCounted(group[..n], d);
      assert group == group[..n] + [group[n]];
      OneMoreOfThose(group[..n], group[n], FailsOn(d));
    }
  }

  /** What one document adds to the counters that do not depend on its type, for any table of fields. */
  lemma {:induction false} AddsMean(table: Table, d: Doc)
    ensures Adds(table, Records, d) == 1
    ensures Adds(table, ImoSeen, d) == |Those(d.identifiers, IdOf(Imo, false))|
    ensures Adds(table, ImoValid, d) == |Those(d.identifiers, IdOf(Imo, true))|
    ensures Adds(table, LeiSeen, d) == |Those(d.identifiers, IdOf(Lei, false))|
    ensures Adds(table, LeiValid, d) == |Those(d.identifiers, IdOf(Lei, true))|
    ensures Adds(table, Aliases, d) == |Those(d.names, AliasOf({Strong, Weak, UnknownStrength}))|
    ensures Adds(table, WeakAliases, d) == |Those(d.names, AliasOf({Weak}))|
    ensures Adds(table, UnknownAliases, d) == |Those(d.names, AliasOf({UnknownStrength}))|
    ensures Adds(table, Errors, d) == |Those(table(Common), FailsOn(d))| + |Those(table(Of(d.entityType)), FailsOn(d))|
  {
    hide Those, CountIds, CountAliases, GroupErrors;
    IdsAreCounted(d.identifiers, Imo, false);
    IdsAreCounted(d.identifiers, Imo, true);
    IdsAreCounted(d.identifiers, Lei, false);
    IdsAreCounted(d.identifiers, Lei, true);
    AliasesAreCounted(d.names, {Strong, Weak, UnknownStrength});
    AliasesAreCounted(d.names, {Weak});
    AliasesAreCounted(d.names, {UnknownStrength});
    FailuresAreCounted(table(Common), d);
    FailuresAreCounted(table(Of(d.entityType)), d);
  }

  // ---------------------------------------------------------------------------------------------
  // Unmapped countries
  // ---------------------------------------------------------------------------------------------

  predicate Spaces(s: string) { forall i :: 0 <= i < |s| ==> s[i] in " \t\n\r\U{B}\U{C}\U{1C}\U{1D}\U{1E}\U{1F}" }

  /** Apart from spaces around it, and in either case, the text is the publisher's word for an unknown country. */
  ghost predicate MarkedUnknown(s: string) {
    exists a, w, b :: s == a + w + b && Spaces(a) && Spaces(b) && I.Upper(w) in {"UNKNOWN", "00"}
  }

  lemma {:induction false} SpaceIff(c: char)
    ensures IsSpace(c) <==> Spaces([c])
  {
    var all := " \t\n\r\U{B}\U{C}\U{1C}\U{1D}\U{1E}\U{1F}";
    assert all[0] == ' ' && all[1] == '\t' && all[2] == '\n' && all[3] == '\r' && all[4] == '\U{B}' && all[5] == '\U{C}';
    assert all[6] == '\U{1C}' && all[7] == '\U{1D}' && all[8] == '\U{1E}' && all[9] == '\U{1F}';
    assert [c][0] == c;
  }

  lemma {:induction false} SpacesIff(s: string)
    ensures Spaces(s) <==> forall i :: 0 <= i < |s| ==> IsSpace(s[i])
  {
    forall i | 0 <= i < |s| ensures IsSpace(s[i]) <==> Spaces([s[i]]) {
      SpaceIff(s[i]);
    }
    assert Spaces(s) <==> forall i :: 0 <= i < |s| ==> Spaces([s[i]]);
  }

  /** Trimming leaves what stands between the spaces. */
  lemma {:induction false} TrimsToCore(a: string, w: string, b: string)
    requires Spaces(a) && Spaces(b) && w != "" && !IsSpace(w[0]) && !IsSpace(w[|w| - 1])
    ensures Trimmed(a + w + b) == w
    decreases |a| + |b|
  {
    SpacesIff(a);
    SpacesIff(b);
    hide Spaces, IsSpace;
    var s := a + w + b;
    if a != "" {
      SpacesIff(a[1..]);
      assert s[1..] == a[1..] + w + b;
      TrimsToCore(a[1..], w, b);
    } else if b != "" {
      SpacesIff(b[..|b| - 1]);
      assert s[0] == w[0];
      assert s[..|s| - 1] == a + w + b[..|b| - 1];
      TrimsToCore(a, w, b[..|b| - 1]);
    } else {
      assert s == w;
    }
  }

  lemma {:induction false} TrimmedSplits(s: string) returns (a: string, b: string)
    ensures s == a + Trimmed(s) + b && Spaces(a) && Spaces(b)
  {
    hide Spaces, IsSpace;
    SpacesIff("");
    if s != "" && IsSpace(s[0]) {
      a, b := TrimmedSplits(s[1..]);
      SpacesIff(a);
      a := [s[0]] + a;
      SpacesIff(a);
    } else if s != "" && IsSpace(s[|s| - 1]) {
      a, b := TrimmedSplits(s[..|s| - 1]);
      SpacesIff(b);
      b := b + [s[|s| - 1]];
      SpacesIff(b);
    } else {
      a, b := "", "";
    }
  }

  /** The code's test on the trimmed, upper-cased text finds exactly the publisher's words for unknown. */
  lemma {:induction false} MarkedUnknownIff(s: string)
    ensures MarkedUnknown(s) <==> I.Upper(Trimmed(s)) in {"UNKNOWN", "00"}
  {
    hide Spaces, Trimmed;
    if MarkedUnknown(s) {
      var a, w, b :| s == a + w + b && Spaces(a) && Spaces(b) && I.Upper(w) in {"UNKNOWN", "00"};
      assert I.Upper(w)[0] in {'U', '0'} && I.Upper(w)[|w| - 1] in {'N', '0'};
      assert w != "" && I.UpperChar(w[0]) in {'U', '0'} && I.UpperChar(w[|w| - 1]) in {'N', '0'};
      TrimsToCore(a, w, b);
    }
    var a, b := TrimmedSplits(s);
  }

  /** A country is given as a text the normaliser could not map, and the publisher does not say it is unknown. */
  ghost predicate NotMapped(country: Option<Text>, raw: Option<Text>) {
    Present(raw) && !Present(country) && !MarkedUnknown(raw.value.chars)
  }

  /** Unmapped country values are counted: those of identifiers, whatever they say, and of addresses, countries and birth places. */
  lemma {:induction false} UnmappedAreCounted(d: Doc)
    ensures Adds(SourceFields, UnmappedValues, d)
         == |Those(d.identifiers, (x: Identifier) => Present(x.countryRaw) && (x.country.Some? ==> x.country.value == ""))|
          + |Those(d.addresses, (x: Address) => NotMapped(x.country, x.countryRaw))|
          + |Those(d.countries, (x: Country) => NotMapped(x.country, x.countryRaw))|
          + |Those(d.birthPlaces, (x: Place) => NotMapped(x.country, x.countryRaw))|
  {
    hide Those, CountUnmapped, CountAddresses, CountCountries, CountPlaces, NotMapped;
    IdsUnmapped(d.identifiers);
    AddressesUnmapped(d.addresses);
    CountriesUnmapped(d.countries);
    PlacesUnmapped(d.birthPlaces);
  }

  lemma {:induction false} NotMappedIff(country: Option<Text>, raw: Option<Text>)
    ensures UnmappedCountry(country, raw) <==> NotMapped(country, raw)
  {
    if Present(raw) {
      MarkedUnknownIff(raw.value.chars);
    }
    hide MarkedUnknown, Trimmed;
  }

  lemma {:induction false} IdsUnmapped(xs: seq<Identifier>)
    ensures CountUnmapped(xs)
         == |Those(xs, (x: Identifier) => Present(x.countryRaw) && (x.country.Some? ==> x.country.value == ""))|
  {
    hide Those;
    var p := (x: Identifier) => Present(x.countryRaw) && (x.country.Some? ==> x.country.value == "");
    if xs == [] {
      NoneOfThose(p);
    } else {
      var n := |xs| - 1;
      IdsUnmapped(xs[..n]);
      assert xs == xs[..n] + [xs[n]];
      OneMoreOfThose(xs[..n], xs[n], p);
    }
  }

  lemma {:induction false} AddressesUnmapped(xs: seq<Address>)
    ensures CountAddresses(xs) == |Those(xs, (x: Address) => NotMapped(x.country, x.countryRaw))|
  {
    hide Those, NotMapped, UnmappedCountry;
    var p := (x: Address) => NotMapped(x.country, x.countryRaw);
    if xs == [] {
      NoneOfThose(p);
    } else {
      var n := |xs| - 1;
      AddressesUnmapped(xs[..n]);
      assert xs == xs[..n] + [xs[n]];
      OneMoreOfThose(xs[..n], xs[n], p);
      NotMappedIff(xs[n].country, xs[n].countryRaw);
    }
  }

  lemma {:induction false} CountriesUnmapped(xs: seq<Country>)
    ensures CountCountries(xs) == |Those(xs, (x: Country) => NotMapped(x.country, x.countryRaw))|
  {
    hide Those, NotMapped, UnmappedCountry;
    var p := (x: Country) => NotMapped(x.country, x.countryRaw);
    if xs == [] {
      NoneOfThose(p);
    } else {
      var n := |xs| - 1;
      CountriesUnmapped(xs[..n]);
      assert xs == xs[..n] + [xs[n]];
      OneMoreOfThose(xs[..n], xs[n], p);
      NotMappedIff(xs[n].country, xs[n].countryRaw);
    }
  }

  lemma {:induction false} PlacesUnmapped(xs: seq<Place>)
    ensures CountPlaces(xs) == |Those(xs, (x: Place) => NotMapped(x.country, x.countryRaw))|
  {
    hide Those, NotMapped, UnmappedCountry;
    var p := (x: Place) => NotMapped(x.country, x.countryRaw);
    if xs == [] {
      NoneOfThose(p);
    } else {
      var n := |xs| - 1;
      PlacesUnmapped(xs[..n]);
      assert xs == xs[..n] + [xs[n]];
      OneMoreOfThose(xs[..n], xs[n], p);
      NotMappedIff(xs[n].country, xs[n].countryRaw);
    }
  }
}
