/** Small listings, spelled out. */
module Examples {
  import opened Json
  import opened Features
  import opened Writes
  import opened SortKeys
  import opened Query
  import opened FixedTable
  import opened Counterexamples
  import Geo = Geometry

  function WithKind(id: string, kind: string): Feature {
    Feature(id, "c", "A", "public", Null, map["kind" := Str(kind)], "e", 0, 0, false)
  }

  const ROAD := WithKind("a", "road")
  const RIVER := WithKind("b", "river")
  const WAYS: Table := map[Key("A#COLLECTION#c", "FEATURE#a") := ROAD, Key("A#COLLECTION#c", "FEATURE#b") := RIVER]

  lemma KindIsSound(id: string, kind: string)
    ensures var f := WithKind(id, kind); Stored(f) == f && CleanProperties(f)
  {
    var f := WithKind(id, kind);
    assert Settled(Dict(f.properties));
    StoreRoundTrip(f);
  }

  lemma WaysAreSound()
    ensures SoundTable(WAYS)
  {
    KindIsSound("a", "road");
    KindIsSound("b", "river");
    KeysAsText(ROAD);
    KeysAsText(RIVER);
    assert "FEATURE#" + "a" == "FEATURE#a" && "FEATURE#" + "b" == "FEATURE#b";
    assert "A" + "#COLLECTION#" + "c" == "A#COLLECTION#c";
  }

  /** Asked for roads, the listing has the road and not the river. */
  lemma KindFilterListsRoad()
    ensures Listing(WAYS, "A#COLLECTION#c", Filter({"public"}, map["kind" := "road"], None)) == [ROAD]
  {
    hide SoundTable, Stored;
    var q := Filter({"public"}, map["kind" := "road"], None);
    WaysAreSound();
    RestSpecified(WAYS, "A#COLLECTION#c", q, None);
    hide Rest;
    assert "FEATURE#" + "a" == "FEATURE#a" && "FEATURE#" + "b" == "FEATURE#b";
    forall f ensures f in Listing(WAYS, "A#COLLECTION#c", q) <==> f == ROAD {
      assert "kind" in q.properties;
    }
    OnlyMember(Listing(WAYS, "A#COLLECTION#c", q), ROAD);
  }

  /** Longitude comes first: a point far east and little north, and two boxes. */
  lemma AxesExample()
    ensures var point := PointAt(100, 1);
      && Geo.IsGeometry(point)
      && Geo.Kept(point, Geo.Box(99.0, 0.0, 101.0, 2.0))
      && !Geo.Kept(point, Geo.Box(0.0, 99.0, 2.0, 101.0))
  {
    PointEnvelope(100, 1);
  }

  /** The positions of a point, a line, and of a collection that nests both. */
  lemma NestedPositionsExample(a: Value, b: Value, c: Value)
    requires Geo.IsPosition(a) && Geo.IsPosition(b) && Geo.IsPosition(c)
    ensures var point := Dict(map["type" := Str("Point"), "coordinates" := a]);
      var line := Dict(map["type" := Str("LineString"), "coordinates" := List([b, c])]);
      var inner := Dict(map["type" := Str("GeometryCollection"), "geometries" := List([line])]);
      var outer := Dict(map["type" := Str("GeometryCollection"), "geometries" := List([point, inner])]);
      Geo.IsGeometry(outer) && Geo.Positions(outer) == [a, b, c]
  {
    var point := Dict(map["type" := Str("Point"), "coordinates" := a]);
    var line := Dict(map["type" := Str("LineString"), "coordinates" := List([b, c])]);
    var inner := Dict(map["type" := Str("GeometryCollection"), "geometries" := List([line])]);
    var outer := Dict(map["type" := Str("GeometryCollection"), "geometries" := List([point, inner])]);
    PointPositions(a);
    LinePositions(b, c);
    assert Geo.IsGeometry(inner) && Geo.Positions(inner) == Geo.PositionsOfAll([line]) == Geo.Positions(line);
    assert Geo.IsGeometry(outer);
    assert [point, inner][1..] == [inner];
    assert Geo.PositionsOfAll([inner]) == Geo.Positions(inner);
  }

  lemma PointPositions(a: Value)
    requires Geo.IsPosition(a)
    ensures var point := Dict(map["type" := Str("Point"), "coordinates" := a]);
      Geo.IsGeometry(point) && Geo.Positions(point) == [a]
  {
    assert Geo.Depth("Point") == Some(0);
  }

  lemma LinePositions(b: Value, c: Value)
    requires Geo.IsPosition(b) && Geo.IsPosition(c)
    ensures var line := Dict(map["type" := Str("LineString"), "coordinates" := List([b, c])]);
      Geo.IsGeometry(line) && Geo.Positions(line) == [b, c]
  {
    var vs := [b, c];
    assert Geo.IsCoordinates(List(vs), 1);
    assert vs[1..] == [c] && vs[1..][1..] == [];
    assert Geo.FlattenAll([c], 0) == [c] + Geo.FlattenAll([], 0) == [c];
    assert Geo.FlattenAll(vs, 0) == [b] + Geo.FlattenAll(vs[1..], 0);
  }
}
