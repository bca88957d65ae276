/** Tables on which a listing falls short: one that spends the page cap, and one on
    which dropped filters show. */
module Counterexamples {
  import opened Json
  import opened Features
  import opened Writes
  import opened SortKeys
  import opened Query
  import opened Paging
  import opened FixedTable
  import opened Client
  import opened Servings
  import Geo = Geometry

  const PARTITION := MakePk("A", "c")

  function FeatureOf(id: string, geometry: Value, deleted: bool): Feature {
    Feature(id, "c", "A", "public", geometry, map[], "e", 0, 0, deleted)
  }

  function Always(t: Table): World {
    (n: nat) => t
  }

  lemma FeatureIsSound(f: Feature)
    requires f == FeatureOf(f.id, f.geometry, f.deleted) && Settled(f.geometry)
    ensures SoundItem(KeyOf(f), f) && KeyOf(f) == Key(PARTITION, SortKey(f))
  {
    StoreRoundTrip(f);
    assert Settled(Dict(f.properties));
  }

  predicate Holds(t: Table, f: Feature) {
    Key(PARTITION, SortKey(f)) in t && t[Key(PARTITION, SortKey(f))] == f
  }

  /** A list in key order with one member. */
  lemma OnlyMember(items: seq<Feature>, f: Feature)
    requires Ascending(Keys(items)) && forall g :: g in items <==> g == f
    ensures items == [f]
  {
    SameFeatures(items, [f]);
  }

  // ---- Fifty deleted items before a public one -----------------------------------------------------

  function Name(n: nat): string {
    if n == 0 then "" else "a" + Name(n - 1)
  }

  function Deleted(n: nat): Table {
    if n == 0 then map[]
    else
      var f := FeatureOf(Name(n), Null, true);
      Deleted(n - 1)[KeyOf(f) := f]
  }

  const PUBLIC := FeatureOf("b", Null, false)
  const ONLY_PUBLIC := Filter({"public"}, map[], None)
  const BURIED := Deleted(50)[KeyOf(PUBLIC) := PUBLIC]

  /** The sort keys of the first `n` deleted items. */
  function NameKeys(n: nat): set<string> {
    if n == 0 then {} else NameKeys(n - 1) + {MakeSk(Name(n))}
  }

  lemma {:induction false} NamesAre(n: nat)
    ensures |Name(n)| == n && (n > 0 ==> Name(n)[0] == 'a')
  {
    if n > 0 {
      NamesAre(n - 1);
    }
  }

  lemma NameKeyIs(n: nat)
    requires n > 0
    ensures var k := MakeSk(Name(n));
      |k| == |SORT_PREFIX| + n && Less(k, SortKey(PUBLIC)) && SORT_PREFIX <= k
  {
    NamesAre(n);
    assert Less(Name(n), "b");
    LessUnderPrefix(SORT_PREFIX, Name(n), "b");
  }

  lemma {:induction false} NameKeysAre(n: nat)
    ensures |NameKeys(n)| == n
    ensures forall k | k in NameKeys(n) :: |k| <= |SORT_PREFIX| + n && Less(k, SortKey(PUBLIC)) && SORT_PREFIX <= k
  {
    hide Less, MakeSk;
    if n > 0 {
      NameKeysAre(n - 1);
      NameKeyIs(n);
    }
  }

  lemma {:induction false} NameKeysStored(n: nat)
    ensures forall k | k in NameKeys(n) :: Key(PARTITION, k) in Deleted(n)
  {
    hide MakePk, MakeSk;
    if n > 0 {
      NameKeysStored(n - 1);
    }
  }

  lemma {:induction false} DeletedIsSound(n: nat)
    ensures forall k | k in Deleted(n) :: SoundItem(k, Deleted(n)[k]) && Deleted(n)[k].deleted
  {
    if n > 0 {
      DeletedIsSound(n - 1);
      FeatureIsSound(FeatureOf(Name(n), Null, true));
    }
  }

  lemma BuriedIs()
    ensures SoundTable(BURIED)
    ensures forall f :: Holds(BURIED, f) && Matches(ONLY_PUBLIC, f) <==> f == PUBLIC
    ensures forall sk | MatchesAt(BURIED, PARTITION, ONLY_PUBLIC, sk) :: sk == SortKey(PUBLIC)
  {
    hide SoundItem, Deleted;
    DeletedIsSound(MAX_QUERY_PAGES);
    FeatureIsSound(PUBLIC);
    assert Matches(ONLY_PUBLIC, PUBLIC);
  }

  lemma BuriedMisses()
    ensures |MissesAfter(BURIED, PARTITION, ONLY_PUBLIC, None)| >= MAX_QUERY_PAGES
  {
    hide Deleted, Matches, MatchesAt, NameKeys, Candidates, SoundTable, Less, MakePk, MakeSk;
    BuriedIs();
    NameKeysAre(MAX_QUERY_PAGES);
    NameKeysStored(MAX_QUERY_PAGES);
    CandidatesAre(BURIED, PARTITION, None);
    Smaller(NameKeys(MAX_QUERY_PAGES), MissesAfter(BURIED, PARTITION, ONLY_PUBLIC, None));
  }

  /** The listing holds one feature, and the store can serve the first call so that it
      ends with none and no cursor. */
  lemma CapHidesPublicFeature()
    ensures Listing(BURIED, PARTITION, ONLY_PUBLIC) == [PUBLIC]
    ensures exists serving :: StuckUnder(Always(BURIED), 0, PARTITION, None, ONLY_PUBLIC, 10, serving)
  {
    hide Deleted, Matches, MatchesAt, Rest, StuckUnder, MissesAfter;
    BuriedIs();
    RestHas(BURIED, PARTITION, ONLY_PUBLIC, None);
    OnlyMember(Listing(BURIED, PARTITION, ONLY_PUBLIC), PUBLIC);
    BuriedMisses();
    StuckIffMisses(Always(BURIED), BURIED, 0, PARTITION, None, ONLY_PUBLIC, 10);
  }

  // ---- Two features, a box that only the first meets -------------------------------------------------

  function PointAt(x: int, y: int): Value {
    Dict(map["type" := Str("Point"), "coordinates" := List([Int(x), Int(y)])])
  }

  const NEAR := FeatureOf("a", PointAt(0, 0), false)
  const FAR := FeatureOf("b", PointAt(5, 5), false)
  const BOTH: Table := map[KeyOf(NEAR) := NEAR, KeyOf(FAR) := FAR]
  const AROUND_ORIGIN := Filter({"public"}, map[], Some(Geo.Box(-1.0, -1.0, 1.0, 1.0)))

  lemma PointEnvelope(x: int, y: int)
    ensures var g := PointAt(x, y);
      Geo.IsGeometry(g) && Geo.Envelope(g) == Some(Geo.Box(x as real, y as real, x as real, y as real))
  {
    var g := PointAt(x, y);
    var position := List([Int(x), Int(y)]);
    assert Geo.TypeOf(g) == "Point" && Geo.Depth("Point") == Some(0);
    assert Geo.Positions(g) == [position];
    assert Geo.Lons([position]) == [x as real] && Geo.Lats([position]) == [y as real];
  }

  lemma BothMatch()
    ensures Matches(AROUND_ORIGIN, NEAR) && !Matches(AROUND_ORIGIN, FAR)
    ensures Matches(ONLY_PUBLIC, NEAR) && Matches(ONLY_PUBLIC, FAR)
  {
    hide Geo.Envelope, Geo.IsGeometry;
    PointEnvelope(0, 0);
    PointEnvelope(5, 5);
  }

  lemma BothAre()
    ensures SoundTable(BOTH) && Less(SortKey(NEAR), SortKey(FAR))
    ensures forall f :: Holds(BOTH, f) <==> f == NEAR || f == FAR
  {
    hide SoundItem;
    PointIsSettled(0, 0);
    PointIsSettled(5, 5);
    FeatureIsSound(NEAR);
    FeatureIsSound(FAR);
    assert Less("a", "b");
    LessUnderPrefix(SORT_PREFIX, "a", "b");
    LessAsymmetric(SortKey(NEAR), SortKey(FAR));
  }

  lemma PointIsSettled(x: int, y: int)
    ensures Settled(PointAt(x, y))
  {
    assert Settled(List([Int(x), Int(y)]));
  }

  lemma BoxLists()
    ensures Listing(BOTH, PARTITION, AROUND_ORIGIN) == [NEAR]
    ensures Rest(BOTH, PARTITION, ONLY_PUBLIC, Some(SortKey(NEAR))) == [FAR]
  {
    hide Matches, Rest, SoundTable, Less;
    BothAre();
    BothMatch();
    RestHas(BOTH, PARTITION, AROUND_ORIGIN, None);
    forall g ensures g in Listing(BOTH, PARTITION, AROUND_ORIGIN) <==> g == NEAR {
      assert Holds(BOTH, g) <==> g == NEAR || g == FAR;
    }
    OnlyMember(Listing(BOTH, PARTITION, AROUND_ORIGIN), NEAR);
    RestHas(BOTH, PARTITION, ONLY_PUBLIC, Some(SortKey(NEAR)));
    LessIrreflexive(SortKey(NEAR));
    forall g ensures g in Rest(BOTH, PARTITION, ONLY_PUBLIC, Some(SortKey(NEAR))) <==> g == FAR {
      assert Holds(BOTH, g) <==> g == NEAR || g == FAR;
    }
    OnlyMember(Rest(BOTH, PARTITION, ONLY_PUBLIC, Some(SortKey(NEAR))), FAR);
  }

  /** With a limit of one the filtered list holds the near feature alone, and the
      client can get both. */
  lemma DroppedBoxShows()
    ensures Listing(BOTH, PARTITION, AROUND_ORIGIN) == [NEAR]
    ensures exists serving ::
      && Uncapped(Always(BOTH), PARTITION, AROUND_ORIGIN, 1, serving)
      && ResultOf(Always(BOTH), BOTH, PARTITION, AROUND_ORIGIN, ONLY_PUBLIC, 1, serving) == [NEAR, FAR]
  {
    hide Listing, Rest, CallOf, SoundTable, CallOk, MakePk, MakeSk;
    var world := Always(BOTH);
    BothAre();
    BoxLists();
    var serving := ServedUpToLimit(world, BOTH, PARTITION, AROUND_ORIGIN, 1);
    assert Uncapped(world, PARTITION, AROUND_ORIGIN, 1, serving);
    FirstPageIs(world, BOTH, PARTITION, AROUND_ORIGIN, 1, serving);
    assert ResultOf(world, BOTH, PARTITION, AROUND_ORIGIN, ONLY_PUBLIC, 1, serving) == [NEAR] + [FAR];
  }
}
