/** Queries, walks and counts over a table that no one changes meanwhile: the
    specification is the sorted list of matching features. */
module FixedTable {
  import opened Json
  import opened Features
  import opened Writes
  import opened FeatureDal
  import opened SortKeys
  import opened Query
  import opened Paging
  import opened Walk
  import Geo = Geometry

  ghost predicate Fixed(world: World, t: Table) {
    forall n :: world(n) == t
  }

  function MatchingKeys(t: Table, pk: string, q: Filter, after: Option<string>): set<string> {
    set k | k in t && k.pk == pk && MatchesAt(t, pk, q, k.sk) && After(after, k.sk) :: k.sk
  }

  lemma MatchingKeysHas(t: Table, pk: string, q: Filter, after: Option<string>, sk: string)
    ensures sk in MatchingKeys(t, pk, q, after) <==> MatchesAt(t, pk, q, sk) && After(after, sk)
  {
    if MatchesAt(t, pk, q, sk) && After(after, sk) {
      assert Key(pk, sk).sk in MatchingKeys(t, pk, q, after);
    }
  }

  /** The sorted keys of the matching features after a cursor. */
  function ListedKeys(t: Table, pk: string, q: Filter, after: Option<string>): seq<string> {
    Sorted(MatchingKeys(t, pk, q, after))
  }

  function ItemsAt(t: Table, pk: string, keys: seq<string>): seq<Feature>
    requires forall k | k in keys :: Key(pk, k) in t
  {
    seq(|keys|, i requires 0 <= i < |keys| => assert keys[i] in keys; t[Key(pk, keys[i])])
  }

  lemma ListedKeysPresent(t: Table, pk: string, q: Filter, after: Option<string>)
    ensures forall k | k in ListedKeys(t, pk, q, after) :: Key(pk, k) in t && MatchesAt(t, pk, q, k) && After(after, k)
  {
    forall k | k in ListedKeys(t, pk, q, after) ensures Key(pk, k) in t && MatchesAt(t, pk, q, k) && After(after, k) {
      MatchingKeysHas(t, pk, q, after, k);
    }
  }

  /** The matching features after a cursor, in key order. */
  function Rest(t: Table, pk: string, q: Filter, after: Option<string>): (items: seq<Feature>)
    ensures |items| == |ListedKeys(t, pk, q, after)|
  {
    ListedKeysPresent(t, pk, q, after);
    ItemsAt(t, pk, ListedKeys(t, pk, q, after))
  }

  /** The specification: the sorted list of the matching features. */
  function Listing(t: Table, pk: string, q: Filter): seq<Feature> {
    Rest(t, pk, q, None)
  }

  /** The specification does what it says: it lists in key order, and once each,
      exactly the features stored in the partition after the cursor that are not
      deleted, of a visibility asked for, with the properties asked for, and of an
      envelope that overlaps the box asked for. */
  lemma RestSpecified(t: Table, pk: string, q: Filter, after: Option<string>)
    requires SoundTable(t)
    ensures Ascending(Keys(Rest(t, pk, q, after)))
    ensures forall f :: f in Rest(t, pk, q, after) <==>
      Key(pk, SortKey(f)) in t && t[Key(pk, SortKey(f))] == f && Matches(q, f) && After(after, SortKey(f))
    ensures forall f :: f in Rest(t, pk, q, after) <==>
      && Key(pk, "FEATURE#" + f.id) in t && t[Key(pk, "FEATURE#" + f.id)] == f
      && (after.Some? ==> Less(after.value, "FEATURE#" + f.id))
      && !f.deleted
      && (q.visibility == {} || f.visibility in q.visibility)
      && (forall name | name in q.properties :: name in f.properties && f.properties[name] == Str(q.properties[name]))
      && (q.bbox.Some? ==>
            && Geo.IsGeometry(f.geometry)
            && var e, box := Geo.Envelope(f.geometry), q.bbox.value;
            && e.Some?
            && e.value.west <= box.east && box.west <= e.value.east
            && e.value.south <= box.north && box.south <= e.value.north)
  {
    RestHas(t, pk, q, after);
    hide Rest, Matches;
    forall f
      ensures f in Rest(t, pk, q, after) <==>
        && Key(pk, "FEATURE#" + f.id) in t && t[Key(pk, "FEATURE#" + f.id)] == f
        && (after.Some? ==> Less(after.value, "FEATURE#" + f.id))
        && !f.deleted
        && (q.visibility == {} || f.visibility in q.visibility)
        && (forall name | name in q.properties :: name in f.properties && f.properties[name] == Str(q.properties[name]))
        && (q.bbox.Some? ==>
              && Geo.IsGeometry(f.geometry)
              && var e, box := Geo.Envelope(f.geometry), q.bbox.value;
              && e.Some?
              && e.value.west <= box.east && box.west <= e.value.east
              && e.value.south <= box.north && box.south <= e.value.north)
    {
      MatchesMeans(q, f);
    }
  }

  lemma RestHas(t: Table, pk: string, q: Filter, after: Option<string>)
    requires SoundTable(t)
    ensures Ascending(Keys(Rest(t, pk, q, after)))
    ensures forall f :: f in Rest(t, pk, q, after) <==>
      Key(pk, SortKey(f)) in t && t[Key(pk, SortKey(f))] == f && Matches(q, f) && After(after, SortKey(f))
  {
    hide Matches;
    ListedKeysPresent(t, pk, q, after);
    var keys, items := ListedKeys(t, pk, q, after), Rest(t, pk, q, after);
    forall i | 0 <= i < |keys| ensures SortKey(items[i]) == keys[i] {
      assert keys[i] in keys;
      assert SoundItem(Key(pk, keys[i]), t[Key(pk, keys[i])]);
    }
    assert Keys(items) == keys;
    forall f ensures f in items <==>
      Key(pk, SortKey(f)) in t && t[Key(pk, SortKey(f))] == f && Matches(q, f) && After(after, SortKey(f))
    {
      MatchingKeysHas(t, pk, q, after, SortKey(f));
      if f in items {
        var i :| 0 <= i < |items| && items[i] == f;
        assert keys[i] in keys;
      }
      if SortKey(f) in keys && t[Key(pk, SortKey(f))] == f {
        var i :| 0 <= i < |keys| && keys[i] == SortKey(f);
        assert items[i] == f;
      }
    }
  }

  // ---- Walks ---------------------------------------------------------------------------------------

  lemma FixedSeen(world: World, t: Table, a: nat, b: nat, pk: string, q: Filter, f: Feature)
    requires Fixed(world, t) && Seen(world, a, b, pk, q, f)
    ensures MatchesAt(t, pk, q, SortKey(f)) && t[Key(pk, SortKey(f))] == f
  {
  }

  lemma FixedSteady(world: World, t: Table, a: nat, b: nat, pk: string, q: Filter, sk: string)
    requires Fixed(world, t) && MatchesAt(t, pk, q, sk)
    ensures Steady(world, a, b, pk, q, sk)
  {
  }

  /** A walk leaves no gap below what it has collected. */
  lemma {:induction false} WalkHasNoGap(world: World, t: Table, pk: string, q: Filter, calls: seq<Call>, sk: string,
                                        m: string)
    requires Fixed(world, t) && IsWalk(world, pk, q, calls)
    requires MatchesAt(t, pk, q, sk) && m in Keys(Collected(calls)) && Less(sk, m)
    ensures sk in Keys(Collected(calls))
  {
    EveryWalkOk(world, pk, q, calls);
    var c := Final(calls);
    var i :| 0 <= i < |Collected(calls)| && Keys(Collected(calls))[i] == m;
    assert Collected(calls)[i] in Collected(calls);
    FixedSteady(world, t, Begin(calls), End(calls), pk, q, sk);
    if c.next.Some? {
      if Less(c.next.value, sk) {
        LessTransitive(c.next.value, sk, m);
      }
    } else if c.capped {
      assert Collected(calls) == Collected(Front(calls)) + [] == Collected(Front(calls));
      WalkHasNoGap(world, t, pk, q, Front(calls), sk, m);
    }
  }

  /** What a walk has collected is listed, and nothing listed is skipped. */
  lemma WalkKeysListed(world: World, t: Table, pk: string, q: Filter, calls: seq<Call>)
    requires Fixed(world, t) && IsWalk(world, pk, q, calls)
    ensures Ascending(Keys(Collected(calls)))
    ensures forall k | k in Keys(Collected(calls)) :: k in ListedKeys(t, pk, q, None)
    ensures forall k, m | k in ListedKeys(t, pk, q, None) && m in Keys(Collected(calls)) && Less(k, m) ::
      k in Keys(Collected(calls))
  {
    hide Matches, IsWalk;
    var found := Collected(calls);
    var ks, ls := Keys(found), ListedKeys(t, pk, q, None);
    EveryWalkOk(world, pk, q, calls);
    forall k | k in ks ensures k in ls {
      var i :| 0 <= i < |found| && ks[i] == k;
      assert found[i] in found;
      FixedSeen(world, t, Begin(calls), End(calls), pk, q, found[i]);
      MatchingKeysHas(t, pk, q, None, k);
    }
    forall k, m | k in ls && m in ks && Less(k, m) ensures k in ks {
      MatchingKeysHas(t, pk, q, None, k);
      WalkHasNoGap(world, t, pk, q, calls, k, m);
    }
  }

  lemma FinishedHasAll(world: World, t: Table, pk: string, q: Filter, calls: seq<Call>)
    requires Fixed(world, t) && IsWalk(world, pk, q, calls) && Finished(calls)
    ensures forall k | k in ListedKeys(t, pk, q, None) :: k in Keys(Collected(calls))
  {
    hide Matches, IsWalk;
    EveryWalkOk(world, pk, q, calls);
    forall k | k in ListedKeys(t, pk, q, None) ensures k in Keys(Collected(calls)) {
      MatchingKeysHas(t, pk, q, None, k);
      FixedSteady(world, t, Begin(calls), End(calls), pk, q, k);
    }
  }

  /** Each feature collected is the one the table holds. */
  lemma CollectedIsStored(world: World, t: Table, pk: string, q: Filter, calls: seq<Call>, f: Feature)
    requires Fixed(world, t) && IsWalk(world, pk, q, calls) && f in Collected(calls)
    ensures Key(pk, SortKey(f)) in t && t[Key(pk, SortKey(f))] == f
  {
    hide Matches, IsWalk;
    EveryWalkOk(world, pk, q, calls);
    FixedSeen(world, t, Begin(calls), End(calls), pk, q, f);
  }

  /** The pages of a walk, whatever their limits and however the store cuts its
      chunks, are a prefix of the sorted matching features, and all of them unless
      the last call ended on the cap with nothing found. */
  lemma WalkIsPrefixOfListing(world: World, t: Table, pk: string, q: Filter, calls: seq<Call>)
    requires Fixed(world, t) && IsWalk(world, pk, q, calls)
    ensures Collected(calls) <= Listing(t, pk, q)
    ensures Finished(calls) ==> Collected(calls) == Listing(t, pk, q)
  {
    hide Matches, IsWalk, Collected, Fixed, MatchesAt;
    var found, all := Collected(calls), Listing(t, pk, q);
    var ks, ls := Keys(found), ListedKeys(t, pk, q, None);
    WalkKeysListed(world, t, pk, q, calls);
    GaplessIsPrefix(ks, ls);
    forall i | 0 <= i < |found| ensures found[i] == all[i] {
      ListedKeysPresent(t, pk, q, None);
      assert ks[i] == ls[i] && found[i] in found;
      CollectedIsStored(world, t, pk, q, calls, found[i]);
    }
    if Finished(calls) {
      FinishedHasAll(world, t, pk, q, calls);
      AscendingUnique(ks, ls);
    }
  }

  /** A call moves its cursor strictly forward. */
  lemma CursorMovesForward(world: World, pk: string, q: Filter, cursor: Option<string>, c: Call)
    requires CallOk(world, pk, q, cursor, c) && c.next.Some?
    ensures After(cursor, c.next.value) && c.features != []
  {
    PageUpToNext(world, pk, q, cursor, c);
  }

  predicate NeverCapped(calls: seq<Call>) {
    forall i | 0 <= i < |calls| :: !calls[i].capped
  }

  predicate SameLimit(calls: seq<Call>, limit: nat) {
    forall i | 0 <= i < |calls| :: calls[i].limit == limit
  }

  lemma {:induction false} FullPages(world: World, pk: string, q: Filter, calls: seq<Call>, limit: nat)
    requires IsWalk(world, pk, q, calls) && calls != [] && NeverCapped(calls) && SameLimit(calls, limit)
    ensures |Collected(calls)| == limit * (|calls| - 1) + |Final(calls).features|
    ensures Final(calls).next.Some? ==> |Collected(calls)| == limit * |calls|
  {
    hide CallOk;
    var before, n := Front(calls), |calls| - 1;
    assert |before| == n && Final(calls).limit == limit;
    CallIsFull(world, pk, q, CursorAfter(before), Final(calls));
    NextMultiple(limit, n);
    NextMultiple(limit, n - 1);
    if before != [] {
      FullPages(world, pk, q, before, limit);
    }
  }

  lemma NextMultiple(limit: nat, n: int)
    ensures limit * (n + 1) == limit * n + limit
  {
  }

  lemma CallIsFull(world: World, pk: string, q: Filter, cursor: Option<string>, c: Call)
    requires CallOk(world, pk, q, cursor, c)
    ensures c.next.Some? && !c.capped ==> |c.features| == c.limit
  {
  }

  /** Without the cap m matches take at most m / limit + 1 calls. */
  lemma WalkLength(world: World, t: Table, pk: string, q: Filter, calls: seq<Call>, limit: nat)
    requires Fixed(world, t) && IsWalk(world, pk, q, calls) && calls != []
    requires NeverCapped(calls) && SameLimit(calls, limit) && limit > 0
    ensures |calls| <= |Listing(t, pk, q)| / limit + 1
  {
    FullPages(world, pk, q, calls, limit);
    WalkIsPrefixOfListing(world, t, pk, q, calls);
    var m, n := |Listing(t, pk, q)|, |calls| - 1;
    assert limit * n <= m;
    DivisionBound(m, limit, n);
  }

  lemma DivisionBound(m: nat, limit: nat, n: nat)
    requires limit > 0 && limit * n <= m
    ensures n <= m / limit
  {
    assert m == limit * (m / limit) + m % limit;
    if n > m / limit {
      OneMore(limit, n, m / limit);
    }
  }

  lemma OneMore(limit: nat, a: nat, b: nat)
    requires a > b
    ensures limit * a >= limit * b + limit
  {
    assert limit * a == limit * (b + 1) + limit * (a - b - 1);
  }

  /** A call can only end on the cap with nothing found when at least as many items
      as the cap allows reads, none of them matching, lie after its cursor before
      any that matches. */
  lemma StuckNeedsMisses(world: World, t: Table, a: nat, b: nat, pk: string, cursor: Option<string>, q: Filter,
                         marks: seq<string>)
    requires Fixed(world, t) && CapSpent(world, a, b, pk, cursor, q, [], marks)
    ensures |marks| == MAX_QUERY_PAGES && Ascending(marks)
    ensures forall k | k in marks :: InPartition(t, pk, k) && After(cursor, k) && !MatchesAt(t, pk, q, k)
    ensures forall sk | MatchesAt(t, pk, q, sk) && After(cursor, sk) :: Less(marks[|marks| - 1], sk)
  {
    var last := marks[|marks| - 1];
    forall sk | MatchesAt(t, pk, q, sk) && After(cursor, sk) ensures Less(last, sk) {
      FixedSteady(world, t, a, b, pk, q, sk);
    }
    forall k | k in marks ensures InPartition(t, pk, k) && After(cursor, k) && !MatchesAt(t, pk, q, k) {
      var i :| 0 <= i < |marks| && marks[i] == k;
      LessIrreflexive(last);
      if i < |marks| - 1 {
        LessAsymmetric(k, last);
      }
    }
  }

  // ---- Counting -------------------------------------------------------------------------------------

  /** A count that was not cut short is the exact number of matches after the cursor. */
  lemma CountIsExact(world: World, t: Table, a: nat, b: nat, pk: string, cursor: Option<string>, q: Filter,
                     counted: seq<Feature>)
    requires Fixed(world, t) && Progress(world, a, b, pk, cursor, q, counted, cursor, true)
    ensures Keys(counted) == ListedKeys(t, pk, q, cursor) && |counted| == |ListedKeys(t, pk, q, cursor)|
  {
    var ks, ls := Keys(counted), ListedKeys(t, pk, q, cursor);
    forall k ensures k in ks <==> k in ls {
      MatchingKeysHas(t, pk, q, cursor, k);
      if k in ks {
        var i :| 0 <= i < |counted| && ks[i] == k;
        assert counted[i] in counted;
        FixedSeen(world, t, a, b, pk, q, counted[i]);
      }
      if k in ls {
        FixedSteady(world, t, a, b, pk, q, k);
      }
    }
    AscendingUnique(ks, ls);
  }

  /** The matches after a cursor are a page's features followed by the matches after
      the page's own cursor, so the counts of consecutive pages add up. */
  lemma CountIsConserved(world: World, t: Table, pk: string, cursor: Option<string>, q: Filter, c: Call)
    requires Fixed(world, t) && CallOk(world, pk, q, cursor, c)
    ensures c.next.Some? ==>
      ListedKeys(t, pk, q, cursor) == Keys(c.features) + ListedKeys(t, pk, q, c.next)
    ensures c.next.None? && !c.capped ==> ListedKeys(t, pk, q, cursor) == Keys(c.features)
  {
    var ks, ls := Keys(c.features), ListedKeys(t, pk, q, cursor);
    forall k ensures k in ks <==> k in ls && InPage(k, c.next, c.capped) && (c.next.None? ==> !c.capped || k in ks) {
      PageHas(world, t, pk, cursor, q, c, k);
    }
    if c.next.Some? {
      PageUpToNext(world, pk, q, cursor, c);
      var rest := ListedKeys(t, pk, q, c.next);
      forall k ensures k in ks + rest <==> k in ls {
        MatchingKeysHas(t, pk, q, cursor, k);
        MatchingKeysHas(t, pk, q, c.next, k);
        if cursor.Some? && After(c.next, k) {
          LessTransitive(cursor.value, c.next.value, k);
        }
      }
      forall i | 0 <= i < |ks| ensures UpTo(ks[i], c.next) {
        assert c.features[i] in c.features;
      }
      JoinAscending(ks, rest, c.next.value);
      AscendingUnique(ls, ks + rest);
    } else if !c.capped {
      AscendingUnique(ls, ks);
    }
  }

  lemma PageHas(world: World, t: Table, pk: string, cursor: Option<string>, q: Filter, c: Call, k: string)
    requires Fixed(world, t) && CallOk(world, pk, q, cursor, c)
    ensures k in Keys(c.features) ==>
      k in ListedKeys(t, pk, q, cursor) && (c.next.Some? ==> InPage(k, c.next, c.capped))
    ensures k in ListedKeys(t, pk, q, cursor) && InPage(k, c.next, c.capped) ==> k in Keys(c.features)
    ensures c.next.None? && c.capped ==> k !in Keys(c.features)
  {
    MatchingKeysHas(t, pk, q, cursor, k);
    if k in Keys(c.features) {
      var i :| 0 <= i < |c.features| && Keys(c.features)[i] == k;
      assert c.features[i] in c.features;
      FixedSeen(world, t, c.a, c.b, pk, q, c.features[i]);
      if c.next.Some? {
        PageUpToNext(world, pk, q, cursor, c);
      }
    }
    if k in ListedKeys(t, pk, q, cursor) {
      FixedSteady(world, t, c.a, c.b, pk, q, k);
    }
  }

  lemma JoinAscending(a: seq<string>, b: seq<string>, m: string)
    requires Ascending(a) && Ascending(b)
    requires forall i | 0 <= i < |a| :: UpTo(a[i], Some(m))
    requires forall k | k in b :: Less(m, k)
    ensures Ascending(a + b)
  {
    forall i, j | 0 <= i < |a| && 0 <= j < |b| ensures Less(a[i], b[j]) {
      assert b[j] in b;
      NotLessTransitive(a[i], m, b[j]);
    }
  }

  /** When neither count was cut short, a page's `numberMatched` is its number of
      features plus the `numberMatched` of the next page. */
  lemma NumberMatchedAddsUp(world: World, t: Table, pk: string, cursor: Option<string>, q: Filter, c: Call,
                            b: nat, counted: seq<Feature>, a': nat, b': nat, counted': seq<Feature>)
    requires Fixed(world, t) && CallOk(world, pk, q, cursor, c) && c.next.Some?
    requires Progress(world, c.a, b, pk, cursor, q, counted, cursor, true)
    requires Progress(world, a', b', pk, c.next, q, counted', c.next, true)
    ensures |counted| == |c.features| + |counted'|
  {
    CountIsExact(world, t, c.a, b, pk, cursor, q, counted);
    CountIsExact(world, t, a', b', pk, c.next, q, counted');
    CountIsConserved(world, t, pk, cursor, q, c);
  }

  /** A page takes its features off the front of what is left. */
  lemma PageSplitsRest(world: World, t: Table, pk: string, q: Filter, cursor: Option<string>, c: Call)
    requires Fixed(world, t) && CallOk(world, pk, q, cursor, c)
    ensures c.next.Some? ==> Rest(t, pk, q, cursor) == c.features + Rest(t, pk, q, c.next)
    ensures c.next.None? && !c.capped ==> Rest(t, pk, q, cursor) == c.features
    ensures c.next.None? && c.capped ==> c.features == []
  {
    hide Matches, Sorted, MatchingKeys;
    CountIsConserved(world, t, pk, cursor, q, c);
    ListedKeysPresent(t, pk, q, cursor);
    forall i | 0 <= i < |c.features| ensures Key(pk, SortKey(c.features[i])) in t
        && t[Key(pk, SortKey(c.features[i]))] == c.features[i] {
      assert c.features[i] in c.features;
      FixedSeen(world, t, c.a, c.b, pk, q, c.features[i]);
    }
    if c.next.Some? {
      ListedKeysPresent(t, pk, q, c.next);
      assert Rest(t, pk, q, cursor) == c.features + Rest(t, pk, q, c.next);
    } else if !c.capped {
      assert Rest(t, pk, q, cursor) == c.features;
    }
  }

  // ---- Lookup ---------------------------------------------------------------------------------------

  /** Looking a feature up by id succeeds exactly when the id occurs in a finished
      walk with the same visibility filter and no other condition, and gives the
      feature listed there. */
  lemma LookupAgreesWithListing(dal: FeatureDAL, world: World, organization: string, collectionId: string, id: string,
                                visibility: set<string>, calls: seq<Call>)
    requires dal.Valid() && Fixed(world, dal.features) && visibility != {}
    requires IsWalk(world, MakePk(organization, collectionId), Filter(visibility, map[], None), calls)
    requires Finished(calls)
    ensures forall f ::
      dal.GetFeature(collectionId, id, organization, visibility) == Ok(f) <==> f in Collected(calls) && f.id == id
  {
    var t, pk, q := dal.features, MakePk(organization, collectionId), Filter(visibility, map[], None);
    WalkIsPrefixOfListing(world, t, pk, q, calls);
    RestHas(t, pk, q, None);
    forall f ensures
      dal.GetFeature(collectionId, id, organization, visibility) == Ok(f) <==> f in Collected(calls) && f.id == id
    {
      LookupIsListed(t, pk, q, id, visibility, f);
    }
  }

  lemma LookupIsListed(t: Table, pk: string, q: Filter, id: string, visibility: set<string>, f: Feature)
    requires SoundTable(t) && visibility != {} && q == Filter(visibility, map[], None)
    ensures Visible(Lookup(t, Key(pk, MakeSk(id))), visibility) == Ok(f) <==>
      (Key(pk, SortKey(f)) in t && t[Key(pk, SortKey(f))] == f && Matches(q, f)) && f.id == id
  {
    if Visible(Lookup(t, Key(pk, MakeSk(id))), visibility) == Ok(f) {
      assert SoundItem(Key(pk, MakeSk(id)), f);
      SkInjective(f.id, id);
    }
  }
}
