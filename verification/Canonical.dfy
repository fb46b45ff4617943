/**
 The canonical record as the publisher pipeline sees it: a stable key and a document. `content_hash` is taken to be
 collision-free, so comparing hashes is comparing documents; what neither the cross-list index nor the quality
 metrics look at is kept together in `rest`.
 */
module Canonical {
  import opened Base

  /** A publisher's stable record id, the hash of an archived file, and a person or system component. */
  datatype Key = Key(text: string)
  datatype Sha = Sha(hex: string)
  datatype Actor = Actor(name: string)
  datatype Text = Text(chars: string)

  datatype IdKind =
    | Passport | NationalId | Imo | Mmsi | CallSign | Lei | Registration | Tax | Swift | UnRef | OfacUid | EuRef
    | AircraftMsn | AircraftTail | Email | Website | OtherId

  datatype Identifier = Identifier(
    kind: IdKind, valueNorm: string, country: Option<string>, countryRaw: Option<Text>, checksumValid: bool)

  datatype EntityType = Person | Organization | Vessel | Aircraft | Unknown

  datatype NameType = Primary | Aka | Fka | Nka | OtherName
  datatype Strength = Strong | Weak | UnknownStrength
  datatype Name = Name(kind: NameType, strength: Strength, full: Text)

  datatype Address = Address(street: Option<Text>, country: Option<Text>, countryRaw: Option<Text>)

  datatype Precision = Day | Month | Year | Range | Unparsed

  datatype CountryKind = NationalityOf | CitizenshipOf | OtherCountry
  datatype Country = Country(kind: CountryKind, country: Option<Text>, countryRaw: Option<Text>)

  datatype Place = Place(country: Option<Text>, countryRaw: Option<Text>)

  datatype ListEntry = ListEntry(
    listedOn: Option<int>, program: Option<Text>, measures: nat, reason: Option<Text>, legalBasis: Option<Text>, evidenceUrl: Option<Text>)

  datatype VesselInfo = VesselInfo(
    vesselType: Option<Text>, flag: Option<Text>, flagRaw: Option<Text>, formerFlags: nat, buildYear: Option<int>, ownerOperator: Option<Text>)

  datatype AircraftInfo = AircraftInfo(model: Option<Text>, operatorRaw: Option<Text>)

  datatype Doc = Doc(
    entityType: EntityType, names: seq<Name>, identifiers: seq<Identifier>, addresses: seq<Address>, births: seq<Precision>,
    birthPlaces: seq<Place>, countries: seq<Country>, listings: seq<ListEntry>, relationships: nat, vessel: Option<VesselInfo>,
    aircraft: Option<AircraftInfo>, gender: Option<Text>, rest: Text)

  /** One parsed record, as `staging_record` stores it. */
  datatype Rec = Rec(key: Key, doc: Doc)

  ghost predicate DistinctKeys(recs: seq<Rec>) {
    forall i, j :: 0 <= i < j < |recs| ==> recs[i].key != recs[j].key
  }

  /** The key-to-document map of a staging set; the last record wins where keys repeat. */
  function AsMap(recs: seq<Rec>): (m: map<Key, Doc>)
  {
    if recs == [] then map[] else AsMap(recs[..|recs| - 1])[recs[|recs| - 1].key := recs[|recs| - 1].doc]
  }

  /** `m` maps each key of `recs` to its document, and nothing else. */
  ghost predicate MapOf(recs: seq<Rec>, m: map<Key, Doc>) {
    && (forall i :: 0 <= i < |recs| ==> recs[i].key in m && m[recs[i].key] == recs[i].doc)
    && (forall k :: k in m ==> exists i :: 0 <= i < |recs| && recs[i].key == k)
  }

  lemma {:induction false} MapOfExtends(recs: seq<Rec>, m: map<Key, Doc>)
    requires recs != [] && MapOf(recs[..|recs| - 1], m) && recs[|recs| - 1].key !in m
    ensures MapOf(recs, m[recs[|recs| - 1].key := recs[|recs| - 1].doc])
  {
    var n := |recs| - 1;
    var init, last := recs[..n], recs[n];
    forall i | 0 <= i < n ensures recs[i].key in m && m[recs[i].key] == recs[i].doc {
      assert init[i] == recs[i];
    }
    forall k | k in m ensures exists i :: 0 <= i < |recs| && recs[i].key == k {
      var i :| 0 <= i < |init| && init[i].key == k;
      assert recs[i].key == k;
    }
    assert recs[n].key == last.key;
  }

  lemma {:induction false} AsMapSound(recs: seq<Rec>)
    requires DistinctKeys(recs)
    ensures MapOf(recs, AsMap(recs))
    ensures |AsMap(recs)| == |recs|
  {
    if recs != [] {
      var n := |recs| - 1;
      var init, m := recs[..n], AsMap(recs[..n]);
      AsMapSound(init);
      forall i | 0 <= i < |init| ensures init[i].key != recs[n].key {
        assert init[i] == recs[i];
      }
      MapOfExtends(recs, m);
      assert AsMap(recs).Keys == m.Keys + {recs[n].key};
    }
  }
}
