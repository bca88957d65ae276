/** Features, the items they are stored as, and the keys of those items. */
module Features {
  import opened Json

  /** An instant. The service's ISO 8601 strings in UTC sort as the instants do. */
  type Time = int

  /** `geometry` is `Null` for a feature without one. */
  datatype Feature = Feature(
    id: string,
    collectionId: string,
    organization: string,
    visibility: string,
    geometry: Value,
    properties: map<string, Value>,
    etag: string,
    createdAt: Time,
    updatedAt: Time,
    deleted: bool)

  // ---- Keys ----------------------------------------------------------------------

  const SEPARATOR := "#COLLECTION#"
  const SORT_PREFIX := "FEATURE#"

  /** The primary key of an item in the features table. */
  datatype Key = Key(pk: string, sk: string)

  function MakePk(organization: string, collectionId: string): string {
    organization + SEPARATOR + collectionId
  }

  function MakeSk(id: string): string {
    SORT_PREFIX + id
  }

  function MakeKey(organization: string, collectionId: string, id: string): Key {
    Key(MakePk(organization, collectionId), MakeSk(id))
  }

  function KeyOf(f: Feature): Key {
    MakeKey(f.organization, f.collectionId, f.id)
  }

  /** The keys as text: two partitions differ unless their texts agree. */
  lemma KeysAsText(f: Feature)
    ensures KeyOf(f) == Key(f.organization + "#COLLECTION#" + f.collectionId, "FEATURE#" + f.id)
    ensures ToItem(f).key == KeyOf(f)
  {
  }

  predicate SeparatorAt(s: string, i: nat) {
    i + |SEPARATOR| <= |s| && s[i..i + |SEPARATOR|] == SEPARATOR
  }

  /** The separator does not begin inside the organization name, not even by
      running over its end. Names free of `#` are separable. */
  predicate Separable(organization: string) {
    forall i: nat | i < |organization| :: !SeparatorAt(organization + SEPARATOR, i)
  }

  lemma HashFreeIsSeparable(organization: string)
    requires '#' !in organization
    ensures Separable(organization)
  {
    forall i: nat | i < |organization|
      ensures !SeparatorAt(organization + SEPARATOR, i)
    {
      assert (organization + SEPARATOR)[i] == organization[i];
      assert organization[i] in organization;
    }
  }

  lemma CollisionNeedsSeparator(o1: string, c1: string, o2: string, c2: string)
    requires |o1| < |o2| && MakePk(o1, c1) == MakePk(o2, c2)
    ensures !Separable(o2)
  {
    var i, n := |o1|, |SEPARATOR|;
    var pk := MakePk(o2, c2);
    assert pk == o1 + SEPARATOR + c1;
    assert pk[i..i + n] == SEPARATOR;
    assert pk[..|o2| + n] == o2 + SEPARATOR;
    assert pk[i..i + n] == pk[..|o2| + n][i..i + n];
    assert SeparatorAt(o2 + SEPARATOR, i);
  }

  /** A separable organization shares no partition with a shorter-named one, and
      any other organization does share one. */
  lemma SeparableIffNoShorterTwin(organization: string)
    ensures Separable(organization) <==>
      forall o: string, c1, c2 | |o| < |organization| :: MakePk(o, c1) != MakePk(organization, c2)
  {
    hide MakePk, Separable;
    if Separable(organization) {
      forall o: string, c1, c2 | |o| < |organization|
        ensures MakePk(o, c1) != MakePk(organization, c2)
      {
        if MakePk(o, c1) == MakePk(organization, c2) {
          CollisionNeedsSeparator(o, c1, organization, c2);
        }
      }
    } else {
      var o, c := ShorterTwin(organization);
      var c2 := "";
      assert MakePk(o, c) == MakePk(organization, c2);
    }
  }

  lemma ShorterTwin(organization: string) returns (o: string, c: string)
    requires !Separable(organization)
    ensures |o| < |organization| && MakePk(o, c) == MakePk(organization, "")
  {
    var n := |SEPARATOR|;
    var i: nat :| i < |organization| && SeparatorAt(organization + SEPARATOR, i);
    var pk := MakePk(organization, "");
    o, c := pk[..i], pk[i + n..];
    assert pk == organization + SEPARATOR;
    assert pk == o + pk[i..i + n] + c;
  }

  /** On separable organizations the partition key determines both its parts. */
  lemma PkInjective(o1: string, c1: string, o2: string, c2: string)
    requires Separable(o1) && Separable(o2)
    requires MakePk(o1, c1) == MakePk(o2, c2)
    ensures o1 == o2 && c1 == c2
  {
    if |o1| < |o2| {
      CollisionNeedsSeparator(o1, c1, o2, c2);
    } else if |o2| < |o1| {
      CollisionNeedsSeparator(o2, c2, o1, c1);
    } else {
      var pk := MakePk(o1, c1);
      assert o1 == pk[..|o1|] && o2 == pk[..|o1|];
      assert c1 == pk[|o1| + |SEPARATOR|..] && c2 == pk[|o1| + |SEPARATOR|..];
    }
  }

  lemma SkInjective(a: string, b: string)
    requires MakeSk(a) == MakeSk(b)
    ensures a == b
  {
    assert a == MakeSk(a)[|SORT_PREFIX|..] && b == MakeSk(b)[|SORT_PREFIX|..];
  }

  // ---- Number conversion ------------------------------------------------------------

  function PythonToDynamo(v: Value): Value {
    match v
    case Float(x) => Dec(x)
    case List(items) => List(seq(|items|, i requires 0 <= i < |items| => PythonToDynamo(items[i])))
    case Dict(entries) => Dict(map k | k in entries :: PythonToDynamo(entries[k]))
    case _ => v
  }

  /** The store's own contract: every number comes back as a `Decimal`. */
  function ReadBack(v: Value): Value {
    match v
    case Int(n) => Dec(n as real)
    case List(items) => List(seq(|items|, i requires 0 <= i < |items| => ReadBack(items[i])))
    case Dict(entries) => Dict(map k | k in entries :: ReadBack(entries[k]))
    case _ => v
  }

  function DecimalToPython(v: Value): Value {
    match v
    case Dec(d) => if d == d.Floor as real then Int(d.Floor) else Float(d)
    case List(items) => List(seq(|items|, i requires 0 <= i < |items| => DecimalToPython(items[i])))
    case Dict(entries) => Dict(map k | k in entries :: DecimalToPython(entries[k]))
    case _ => v
  }

  /** What a value becomes by being written and read. */
  function Decoded(v: Value): Value {
    DecimalToPython(ReadBack(PythonToDynamo(v)))
  }

  /** No float is integral and no `Decimal` is left, at any depth. */
  predicate Settled(v: Value) {
    match v
    case Float(x) => x != x.Floor as real
    case Dec(_) => false
    case List(items) => forall i | 0 <= i < |items| :: Settled(items[i])
    case Dict(entries) => forall k | k in entries :: Settled(entries[k])
    case _ => true
  }

  lemma DecodedScalar(v: Value)
    requires !v.List? && !v.Dict?
    ensures SameUpToNumbers(v, Decoded(v)) && Settled(Decoded(v))
    ensures !Decoded(v).List? && !Decoded(v).Dict? && (v.Null? <==> Decoded(v).Null?)
    ensures Decoded(v) == v <==> Settled(v)
  {
  }

  lemma DecodedList(items: seq<Value>)
    ensures Decoded(List(items)) == List(seq(|items|, i requires 0 <= i < |items| => Decoded(items[i])))
  {
    var d := Decoded(List(items)).items;
    forall i | 0 <= i < |items| ensures d[i] == Decoded(items[i]) {
    }
  }

  function DecodedEntries(entries: map<string, Value>): map<string, Value> {
    map k | k in entries :: Decoded(entries[k])
  }

  /** Each conversion goes member by member. */
  lemma MembersConvert(entries: map<string, Value>)
    ensures PythonToDynamo(Dict(entries)) == Dict(map k | k in entries :: PythonToDynamo(entries[k]))
    ensures ReadBack(Dict(entries)) == Dict(map k | k in entries :: ReadBack(entries[k]))
    ensures DecimalToPython(Dict(entries)) == Dict(map k | k in entries :: DecimalToPython(entries[k]))
  {
  }

  lemma DecodedDict(entries: map<string, Value>)
    ensures Decoded(Dict(entries)) == Dict(DecodedEntries(entries))
  {
    hide PythonToDynamo, ReadBack, DecimalToPython;
    MembersConvert(entries);
    var a := PythonToDynamo(Dict(entries)).entries;
    MembersConvert(a);
    var b := ReadBack(Dict(a)).entries;
    MembersConvert(b);
    var d := DecimalToPython(Dict(b)).entries;
    assert d.Keys == entries.Keys;
    forall k | k in entries ensures d[k] == Decoded(entries[k]) {
      assert a[k] == PythonToDynamo(entries[k]) && b[k] == ReadBack(a[k]);
    }
    assert d == DecodedEntries(entries);
  }

  /** A write and a read keep a value up to number representation, and settle it. */
  lemma {:induction false} DecodedKeepsValue(v: Value)
    ensures SameUpToNumbers(v, Decoded(v)) && Settled(Decoded(v))
    ensures v.Null? <==> Decoded(v).Null?
  {
    hide Decoded;
    match v
    case List(items) =>
      DecodedList(items);
      forall i | 0 <= i < |items|
        ensures SameUpToNumbers(items[i], Decoded(items[i])) && Settled(Decoded(items[i]))
      {
        DecodedKeepsValue(items[i]);
      }
    case Dict(entries) =>
      DecodedDict(entries);
      forall k | k in entries
        ensures SameUpToNumbers(entries[k], Decoded(entries[k])) && Settled(Decoded(entries[k]))
      {
        DecodedKeepsValue(entries[k]);
      }
    case _ => DecodedScalar(v);
  }

  /** A value survives a write and a read untouched exactly when it is settled. */
  lemma {:induction false} DecodedFixesSettled(v: Value)
    ensures Decoded(v) == v <==> Settled(v)
  {
    hide Decoded;
    match v
    case List(items) =>
      DecodedList(items);
      forall i | 0 <= i < |items| ensures Decoded(items[i]) == items[i] <==> Settled(items[i]) {
        DecodedFixesSettled(items[i]);
      }
      assert Decoded(v).items == items <==> forall i | 0 <= i < |items| :: Decoded(v).items[i] == items[i];
    case Dict(entries) =>
      DecodedDict(entries);
      forall k | k in entries ensures Decoded(entries[k]) == entries[k] <==> Settled(entries[k]) {
        DecodedFixesSettled(entries[k]);
      }
      var d := DecodedEntries(entries);
      assert d == entries <==> forall k | k in entries :: d[k] == entries[k];
    case _ => DecodedScalar(v);
  }

  // ---- Items ---------------------------------------------------------------------------

  /** A row of the features table. The geometry attribute may be absent. */
  datatype Item = Item(
    key: Key,
    featureId: string,
    collectionId: string,
    organization: string,
    visibility: string,
    geometry: Option<Value>,
    properties: Value,
    etag: string,
    createdAt: Time,
    updatedAt: Time,
    deleted: bool)

  function ToItem(f: Feature): Item {
    Item(KeyOf(f), f.id, f.collectionId, f.organization, f.visibility,
         if f.geometry.Null? then None else Some(PythonToDynamo(f.geometry)),
         PythonToDynamo(Dict(f.properties)),
         f.etag, f.createdAt, f.updatedAt, f.deleted)
  }

  /** The item as the store hands it out again. */
  function Retrieved(item: Item): Item {
    item.(geometry := if item.geometry.Some? then Some(ReadBack(item.geometry.value)) else None,
          properties := ReadBack(item.properties))
  }

  function FromItem(item: Item): Feature
    requires item.properties.Dict?
  {
    Feature(item.featureId, item.collectionId, item.organization, item.visibility,
            if item.geometry.Some? then DecimalToPython(item.geometry.value) else Null,
            DecimalToPython(item.properties).entries,
            item.etag, item.createdAt, item.updatedAt, item.deleted)
  }

  /** The feature a reader gets after `f` was written. */
  function Stored(f: Feature): Feature {
    FromItem(Retrieved(ToItem(f)))
  }

  lemma StoredIsDecoded(f: Feature)
    ensures Stored(f) == f.(geometry := Decoded(f.geometry), properties := Decoded(Dict(f.properties)).entries)
  {
  }

  /** Writing a feature and reading it back keeps its key and every field, up to
      the representation of numbers; a second round trip changes nothing. */
  lemma StoreRoundTrip(f: Feature)
    ensures SameUpToNumbers(f.geometry, Stored(f).geometry)
    ensures SameUpToNumbers(Dict(f.properties), Dict(Stored(f).properties))
    ensures Stored(f).(geometry := f.geometry, properties := f.properties) == f
    ensures Stored(Stored(f)) == Stored(f)
    ensures ToItem(Stored(f)).key == ToItem(f).key
    ensures Stored(f) == f <==> Settled(f.geometry) && Settled(Dict(f.properties))
  {
    StoredIsDecoded(f);
    StoredIsDecoded(Stored(f));
    DecodedKeepsValue(f.geometry);
    DecodedKeepsValue(Dict(f.properties));
    DecodedFixesSettled(Decoded(f.geometry));
    DecodedFixesSettled(Decoded(Dict(f.properties)));
    DecodedFixesSettled(f.geometry);
    DecodedFixesSettled(Dict(f.properties));
  }

  // ---- The table -----------------------------------------------------------------------------

  /** The features table, item by item as readers decode it. */
  type Table = map<Key, Feature>

  function Lookup(table: Table, key: Key): Option<Feature> {
    if key in table then Some(table[key]) else None
  }

  // ---- GeoJSON ---------------------------------------------------------------------------

  function GeoJsonProperties(f: Feature): map<string, Value> {
    f.properties["organization" := Str(f.organization)]["visibility" := Str(f.visibility)]
  }

  function ToGeoJson(f: Feature): Value {
    Dict(GeoJsonMembers(f.id, f.geometry, Dict(GeoJsonProperties(f))))
  }

  function GeoJsonMembers(id: string, geometry: Value, properties: Value): map<string, Value> {
    map["type" := Str("Feature"), "id" := Str(id), "geometry" := geometry, "properties" := properties]
  }

  /** Stored properties never hold the two attributes kept beside them. */
  predicate CleanProperties(f: Feature) {
    "organization" !in f.properties && "visibility" !in f.properties
  }

  /** What a reader is shown of a feature: its id, its geometry, and its properties
      with the organization and the visibility. */
  lemma GeoJsonIs(f: Feature)
    ensures ToGeoJson(f).Dict? && ToGeoJson(f).entries.Keys == {"type", "id", "geometry", "properties"}
    ensures var shown := ToGeoJson(f).entries;
      && shown["type"] == Str("Feature") && shown["id"] == Str(f.id) && shown["geometry"] == f.geometry
      && shown["properties"]
        == Dict(f.properties["organization" := Str(f.organization)]["visibility" := Str(f.visibility)])
  {
  }

  /** Neither the token, nor the times, nor the deletion mark shows in the GeoJSON,
      and everything else of a clean feature does. */
  lemma GeoJsonShows(f: Feature, g: Feature)
    requires CleanProperties(f) && CleanProperties(g) && f.collectionId == g.collectionId
    ensures ToGeoJson(f) == ToGeoJson(g) <==>
      g == f.(etag := g.etag, createdAt := g.createdAt, updatedAt := g.updatedAt, deleted := g.deleted)
  {
    if ToGeoJson(f) == ToGeoJson(g) {
      var a, b := ToGeoJson(f).entries, ToGeoJson(g).entries;
      assert a["id"] == b["id"] && a["geometry"] == b["geometry"] && a["properties"] == b["properties"];
      var p, q := GeoJsonProperties(f), GeoJsonProperties(g);
      assert p["organization"] == q["organization"] && p["visibility"] == q["visibility"];
      assert f.properties == p - {"organization", "visibility"};
      assert g.properties == q - {"organization", "visibility"};
    }
  }

  lemma DecodedProperties(f: Feature)
    ensures DecodedEntries(GeoJsonProperties(f)) == GeoJsonProperties(Stored(f))
  {
    StoredIsDecoded(f);
    DecodedDict(f.properties);
    assert Decoded(Str(f.organization)) == Str(f.organization);
    assert Decoded(Str(f.visibility)) == Str(f.visibility);
  }

  lemma DecodedMembers(id: string, geometry: Value, properties: Value)
    ensures DecodedEntries(GeoJsonMembers(id, geometry, properties))
      == GeoJsonMembers(id, Decoded(geometry), Decoded(properties))
  {
    var a := DecodedEntries(GeoJsonMembers(id, geometry, properties));
    var b := GeoJsonMembers(id, Decoded(geometry), Decoded(properties));
    assert Decoded(Str("Feature")) == Str("Feature") && Decoded(Str(id)) == Str(id);
    hide Decoded;
    assert a.Keys == b.Keys;
    assert a["type"] == b["type"] && a["id"] == b["id"];
    assert a["geometry"] == b["geometry"] && a["properties"] == b["properties"];
  }

  /** Storing the GeoJSON of a feature as a snapshot, or storing the feature and
      taking the GeoJSON of what is read back, gives the same document. */
  lemma SnapshotOfStored(f: Feature)
    ensures Decoded(ToGeoJson(f)) == ToGeoJson(Stored(f))
  {
    var properties := GeoJsonProperties(f);
    calc {
      Decoded(ToGeoJson(f));
      { DecodedDict(GeoJsonMembers(f.id, f.geometry, Dict(properties))); }
      Dict(DecodedEntries(GeoJsonMembers(f.id, f.geometry, Dict(properties))));
      { DecodedMembers(f.id, f.geometry, Dict(properties)); }
      Dict(GeoJsonMembers(f.id, Decoded(f.geometry), Decoded(Dict(properties))));
      { DecodedDict(properties); DecodedProperties(f); }
      Dict(GeoJsonMembers(f.id, Decoded(f.geometry), Dict(GeoJsonProperties(Stored(f)))));
      { StoredIsDecoded(f); }
      ToGeoJson(Stored(f));
    }
  }
}
