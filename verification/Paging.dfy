/** One page of a query: the loop of the data access layer with its over-collection,
    trimming, restart key, page cap and counting loop. */
module Paging {
  import opened Json
  import opened Features
  import opened SortKeys
  import opened Query
  import Geo = Geometry

  const MAX_QUERY_PAGES := 50

  datatype QueryResult = QueryResult(features: seq<Feature>, nextCursor: Option<string>, numberMatched: Option<nat>)

  /** A page over the reads from `a` to `b`. `capped` says that the loop ended on the
      cap with fewer than `limit` features found. */
  ghost predicate PageOk(world: World, a: nat, b: nat, pk: string, cursor: Option<string>, q: Filter, limit: nat,
                         features: seq<Feature>, next: Option<string>, capped: bool)
  {
    && |features| <= limit && Ascending(Keys(features))
    && (forall f | f in features :: After(cursor, SortKey(f)) && Seen(world, a, b, pk, q, f))
    && (next.Some? ==> features != [] && next.value == SortKey(features[|features| - 1]))
    && (next.Some? && !capped ==> |features| == limit)
    && (next.None? && capped ==> features == [])
    && (limit > 0 ==> forall sk | Steady(world, a, b, pk, q, sk) && After(cursor, sk) && InPage(sk, next, capped) ::
          sk in Keys(features))
  }

  /** One call as its contract describes it, over the store reads from `a` to `b`. */
  datatype Call = Call(a: nat, b: nat, limit: nat, features: seq<Feature>, next: Option<string>, capped: bool)

  ghost predicate CallOk(world: World, pk: string, q: Filter, cursor: Option<string>, c: Call) {
    c.a <= c.b && c.limit > 0 && PageOk(world, c.a, c.b, pk, cursor, q, c.limit, c.features, c.next, c.capped)
  }

  /** Within the part of the partition that a page answers for. */
  predicate InPage(sk: string, next: Option<string>, capped: bool) {
    if next.Some? then UpTo(sk, next) else !capped
  }

  /** What a capped page has behind it: as many reads as the cap allows, each of
      which evaluated a further item of the partition. */
  ghost predicate CapSpent(world: World, a: nat, b: nat, pk: string, cursor: Option<string>, q: Filter,
                           features: seq<Feature>, marks: seq<string>)
  {
    && |marks| == MAX_QUERY_PAGES && b == a + MAX_QUERY_PAGES
    && Ascending(marks)
    && (forall i | 0 <= i < |marks| :: After(cursor, marks[i]) && InPartition(world(a + i), pk, marks[i]))
    && (forall sk | Steady(world, a, b, pk, q, sk) && After(cursor, sk) && UpTo(sk, Some(marks[|marks| - 1])) ::
          sk in Keys(features))
  }

  /** The state of the first loop. */
  ghost predicate Marked(world: World, a: nat, pk: string, cursor: Option<string>, frontier: Option<string>,
                         marks: seq<string>) {
    && Ascending(marks)
    && (forall i | 0 <= i < |marks| :: After(cursor, marks[i]) && InPartition(world(a + i), pk, marks[i]))
    && (marks != [] ==> frontier == Some(marks[|marks| - 1]))
    && (marks == [] ==> frontier == cursor)
  }

  lemma MarkStep(world: World, a: nat, pk: string, cursor: Option<string>, frontier: Option<string>,
                 marks: seq<string>, last: string)
    requires Marked(world, a, pk, cursor, frontier, marks)
    requires InPartition(world(a + |marks|), pk, last) && After(frontier, last)
    ensures Marked(world, a, pk, cursor, Some(last), marks + [last])
  {
    forall i | 0 <= i < |marks| ensures Less(marks[i], last) {
      if i < |marks| - 1 {
        LessTransitive(marks[i], marks[|marks| - 1], last);
      }
    }
    if marks != [] && cursor.Some? {
      LessTransitive(cursor.value, marks[|marks| - 1], last);
    }
  }

  /** What stood throughout up to the page's end is still there after trimming. */
  lemma TrimKeepsSteady(world: World, a: nat, b: nat, pk: string, cursor: Option<string>, q: Filter, n: nat,
                        collected: seq<Feature>, frontier: Option<string>, done: bool, next: Option<string>, sk: string)
    requires Progress(world, a, b, pk, cursor, q, collected, frontier, done)
    requires n <= |collected| && (next.Some? ==> n > 0 && next.value == SortKey(collected[n - 1]))
    requires next.None? ==> done && n == |collected|
    requires Steady(world, a, b, pk, q, sk) && After(cursor, sk) && (next.Some? ==> UpTo(sk, next))
    ensures sk in Keys(collected[..n])
  {
    hide Steady, Seen;
    if next.Some? {
      if !done {
        WithinFrontier(collected, n - 1, frontier, sk);
      }
      KeptByTrim(collected, n, sk);
    } else {
      assert collected[..n] == collected;
    }
  }

  /** Trimming to the limit keeps exactly the features up to the restart key. */
  lemma TrimmedPage(world: World, a: nat, b: nat, pk: string, cursor: Option<string>, q: Filter, limit: nat,
                    collected: seq<Feature>, frontier: Option<string>, done: bool)
    requires Progress(world, a, b, pk, cursor, q, collected, frontier, done)
    requires limit > 0
    ensures var features := if |collected| > limit then collected[..limit] else collected;
      var more := !done || |collected| > limit;
      var next := if more && features != [] then Some(SortKey(features[|features| - 1])) else None;
      var capped := !done && |collected| < limit;
      PageOk(world, a, b, pk, cursor, q, limit, features, next, capped)
  {
    hide Steady, Seen;
    var n := if |collected| > limit then limit else |collected|;
    var features := if |collected| > limit then collected[..limit] else collected;
    assert features == collected[..n];
    var more := !done || |collected| > limit;
    var next := if more && features != [] then Some(SortKey(features[|features| - 1])) else None;
    var capped := !done && |collected| < limit;
    assert Keys(features) == Keys(collected)[..n];
    forall f | f in features ensures f in collected {
    }
    forall sk | Steady(world, a, b, pk, q, sk) && After(cursor, sk) && InPage(sk, next, capped)
      ensures sk in Keys(features)
    {
      TrimKeepsSteady(world, a, b, pk, cursor, q, n, collected, frontier, done, next, sk);
    }
  }

  lemma WithinFrontier(collected: seq<Feature>, n: nat, frontier: Option<string>, sk: string)
    requires n < |collected| && forall f | f in collected :: Covered(SortKey(f), frontier, false)
    requires UpTo(sk, Some(SortKey(collected[n])))
    ensures Covered(sk, frontier, false)
  {
    assert collected[n] in collected;
    if Less(frontier.value, sk) {
      NotLessTransitive(SortKey(collected[n]), frontier.value, sk);
    }
  }

  lemma KeptByTrim(collected: seq<Feature>, n: nat, sk: string)
    requires 0 < n <= |collected| && Ascending(Keys(collected)) && sk in Keys(collected)
    requires UpTo(sk, Some(SortKey(collected[n - 1])))
    ensures sk in Keys(collected[..n])
  {
    var i :| 0 <= i < |collected| && Keys(collected)[i] == sk;
    LaterIsGreater(Keys(collected), n, i);
    assert Keys(collected[..n])[i] == sk;
  }

  lemma CapReached(world: World, a: nat, pk: string, cursor: Option<string>, q: Filter,
                   collected: seq<Feature>, frontier: Option<string>, marks: seq<string>)
    requires Progress(world, a, a + MAX_QUERY_PAGES, pk, cursor, q, collected, frontier, false)
    requires Marked(world, a, pk, cursor, frontier, marks) && |marks| == MAX_QUERY_PAGES
    ensures CapSpent(world, a, a + MAX_QUERY_PAGES, pk, cursor, q, collected, marks)
  {
  }

  lemma ProgressDone(world: World, a: nat, b: nat, pk: string, cursor: Option<string>, q: Filter,
                     items: seq<Feature>, frontier: Option<string>)
    requires Progress(world, a, b, pk, cursor, q, items, frontier, true)
    ensures Progress(world, a, b, pk, cursor, q, items, cursor, true)
  {
    if cursor.Some? {
      LessIrreflexive(cursor.value);
    }
  }

  lemma ChunkGeometries(world: World, n: nat, pk: string, start: Option<string>, q: Filter, items: seq<Feature>,
                        last: Option<string>)
    requires GeometriesOk(world, q.bbox) && q.bbox.Some? && IsChunk(world(n), pk, start, q, items, last)
    ensures forall f | f in items :: HasGeometry(f)
  {
    forall f | f in items ensures HasGeometry(f) {
      assert Key(pk, SortKey(f)) in world(n);
    }
  }

  lemma EmptyPage(world: World, a: nat, b: nat, pk: string, cursor: Option<string>, q: Filter)
    ensures PageOk(world, a, b, pk, cursor, q, 0, [], None, false)
  {
  }

  lemma NothingMarked(world: World, a: nat, pk: string, cursor: Option<string>)
    ensures Marked(world, a, pk, cursor, cursor, [])
  {
  }

  // ---- The call as a function of what the store serves -----------------------------------------

  /** Where the reading of a page has come. */
  datatype Reading = Reading(collected: seq<Feature>, start: Option<string>, hasMore: bool, now: nat)

  /** Read on, one store page at a time, until there are `limit` features, nothing is
      left, or no page is. */
  function ReadOn(world: World, pk: string, q: Filter, limit: nat, serving: Serving, r: Reading,
                  pagesLeft: nat): Reading
    decreases pagesLeft
  {
    if |r.collected| >= limit || !r.hasMore || pagesLeft == 0 then r
    else
      var c := MatchPage(world(r.now), pk, r.start, q, serving(r.now));
      var r' := Reading(r.collected + c.items, if c.last.Some? then c.last else r.start, c.last.Some?, r.now + 1);
      ReadOn(world, pk, q, limit, serving, r', pagesLeft - 1)
  }

  /** The call that a reading ends in. */
  function CallFrom(t0: nat, limit: nat, r: Reading): Call {
    var features := if |r.collected| > limit then r.collected[..limit] else r.collected;
    var more := r.hasMore || |r.collected| > limit;
    var next := if more && features != [] then Some(SortKey(features[|features| - 1])) else None;
    Call(t0, r.now, limit, features, next, r.hasMore && |r.collected| < limit)
  }

  function ReadAll(world: World, t0: nat, pk: string, cursor: Option<string>, q: Filter, limit: nat,
                   serving: Serving): Reading {
    ReadOn(world, pk, q, limit, serving, Reading([], cursor, true, t0), MAX_QUERY_PAGES)
  }

  function CallOf(world: World, t0: nat, pk: string, cursor: Option<string>, q: Filter, limit: nat,
                  serving: Serving): Call {
    CallFrom(t0, limit, ReadAll(world, t0, pk, cursor, q, limit, serving))
  }

  ghost predicate ReadingOk(world: World, a: nat, pk: string, cursor: Option<string>, q: Filter, r: Reading,
                            marks: seq<string>) {
    && a <= r.now
    && Progress(world, a, r.now, pk, cursor, q, r.collected, r.start, !r.hasMore)
    && (r.hasMore ==> r.now == a + |marks| && Marked(world, a, pk, cursor, r.start, marks))
  }

  lemma OnePage(world: World, a: nat, pk: string, cursor: Option<string>, q: Filter, r: Reading, marks: seq<string>,
                choice: Choice)
    requires SoundWorld(world) && r.hasMore && ReadingOk(world, a, pk, cursor, q, r, marks)
    ensures var c := MatchPage(world(r.now), pk, r.start, q, choice);
      var r' := Reading(r.collected + c.items, if c.last.Some? then c.last else r.start, c.last.Some?, r.now + 1);
      ReadingOk(world, a, pk, cursor, q, r', if c.last.Some? then marks + [c.last.value] else marks)
  {
    hide Progress, Marked, MatchPage;
    var c := MatchPage(world(r.now), pk, r.start, q, choice);
    MatchPageIsChunk(world(r.now), pk, r.start, q, choice);
    ProgressStep(world, a, r.now, pk, cursor, q, r.collected, r.start, c.items, c.last);
    if c.last.Some? {
      MarkStep(world, a, pk, cursor, r.start, marks, c.last.value);
    }
  }

  /** However the store serves the pages, the reading covers what it has passed. */
  lemma {:induction false} ReadOnOk(world: World, a: nat, pk: string, cursor: Option<string>, q: Filter, limit: nat,
                                    serving: Serving,
                                    r: Reading, pagesLeft: nat, marks: seq<string>) returns (marks': seq<string>)
    requires SoundWorld(world) && ReadingOk(world, a, pk, cursor, q, r, marks)
    ensures var r' := ReadOn(world, pk, q, limit, serving, r, pagesLeft);
      && ReadingOk(world, a, pk, cursor, q, r', marks')
      && (r'.hasMore && |r'.collected| < limit ==> |marks'| == |marks| + pagesLeft)
    decreases pagesLeft
  {
    hide ReadingOk, MatchPage, SoundWorld;
    marks' := marks;
    if |r.collected| < limit && r.hasMore && pagesLeft > 0 {
      var c := MatchPage(world(r.now), pk, r.start, q, serving(r.now));
      var r' := Reading(r.collected + c.items, if c.last.Some? then c.last else r.start, c.last.Some?, r.now + 1);
      OnePage(world, a, pk, cursor, q, r, marks, serving(r.now));
      marks' := ReadOnOk(world, a, pk, cursor, q, limit, serving, r', pagesLeft - 1,
                         if c.last.Some? then marks + [c.last.value] else marks);
    }
  }

  /** However the store serves it, a call keeps its contract. */
  lemma CallOfOk(world: World, t0: nat, pk: string, cursor: Option<string>, q: Filter, limit: nat, serving: Serving)
    returns (marks: seq<string>)
    requires SoundWorld(world)
    ensures var c := CallOf(world, t0, pk, cursor, q, limit, serving);
      var r := ReadAll(world, t0, pk, cursor, q, limit, serving);
      && c.a <= c.b && PageOk(world, c.a, c.b, pk, cursor, q, limit, c.features, c.next, c.capped)
      && (limit > 0 ==> CallOk(world, pk, q, cursor, c))
      && (c.capped ==> CapSpent(world, c.a, c.b, pk, cursor, q, c.features, marks))
      && Progress(world, t0, r.now, pk, cursor, q, r.collected, r.start, !r.hasMore)
  {
    hide Progress, Marked, PageOk, CapSpent, ReadOn;
    var r := Reading([], cursor, true, t0);
    NoProgressYet(world, t0, pk, cursor, q);
    NothingMarked(world, t0, pk, cursor);
    marks := ReadOnOk(world, t0, pk, cursor, q, limit, serving, r, MAX_QUERY_PAGES, []);
    var r' := ReadAll(world, t0, pk, cursor, q, limit, serving);
    if limit > 0 {
      TrimmedPage(world, t0, r'.now, pk, cursor, q, limit, r'.collected, r'.start, !r'.hasMore);
    } else {
      EmptyPage(world, t0, r'.now, pk, cursor, q);
    }
    if r'.hasMore && |r'.collected| < limit {
      CapReached(world, t0, pk, cursor, q, r'.collected, r'.start, marks);
    }
  }

  lemma ReadOneMore(world: World, pk: string, q: Filter, limit: nat, serving: Serving, r: Reading, pagesLeft: nat,
                    items: seq<Feature>, last: Option<string>)
    requires |r.collected| < limit && r.hasMore && pagesLeft > 0
    requires MatchPage(world(r.now), pk, r.start, q, serving(r.now)) == Chunk(items, last)
    ensures ReadOn(world, pk, q, limit, serving, r, pagesLeft)
      == ReadOn(world, pk, q, limit, serving,
                Reading(r.collected + items, if last.Some? then last else r.start, last.Some?, r.now + 1),
                pagesLeft - 1)
  {
  }

  lemma ReadingEnds(world: World, pk: string, q: Filter, limit: nat, serving: Serving, r: Reading, pagesLeft: nat)
    requires |r.collected| >= limit || !r.hasMore || pagesLeft == 0
    ensures ReadOn(world, pk, q, limit, serving, r, pagesLeft) == r
  {
  }

  lemma PageServed(t: Table, pk: string, start: Option<string>, q: Filter, choice: Choice, items: seq<Feature>)
    requires var c := StoreQuery(t, pk, start, q, choice);
      items == if q.bbox.Some? then KeptOf(c.items, q.bbox.value) else c.items
    ensures MatchPage(t, pk, start, q, choice) == Chunk(items, StoreQuery(t, pk, start, q, choice).last)
  {
  }

  predicate StoredIn(t: Table, pk: string, f: Feature) {
    Key(pk, "FEATURE#" + f.id) in t && t[Key(pk, "FEATURE#" + f.id)] == f
  }

  /** What is known of each feature of a page. */
  lemma PageMeans(world: World, a: nat, b: nat, organization: string, collectionId: string,
                  cursor: Option<string>, q: Filter, limit: nat, features: seq<Feature>, next: Option<string>,
                  capped: bool)
    requires PageOk(world, a, b, MakePk(organization, collectionId), cursor, q, limit, features, next, capped)
    ensures forall f | f in features ::
      && (cursor.Some? ==> Less(cursor.value, "FEATURE#" + f.id))
      && !f.deleted
      && (q.visibility == {} || f.visibility in q.visibility)
      && (forall name | name in q.properties :: name in f.properties && f.properties[name] == Str(q.properties[name]))
      && (q.bbox.Some? ==>
            && Geo.IsGeometry(f.geometry)
            && var e, box := Geo.Envelope(f.geometry), q.bbox.value;
            && e.Some?
            && e.value.west <= box.east && box.west <= e.value.east
            && e.value.south <= box.north && box.south <= e.value.north)
      && exists n | a <= n < b :: StoredIn(world(n), organization + "#COLLECTION#" + collectionId, f)
  {
    hide Matches;
    var pk := MakePk(organization, collectionId);
    assert pk == organization + "#COLLECTION#" + collectionId;
    forall f | f in features
      ensures Matches(q, f) && exists n | a <= n < b :: StoredIn(world(n), pk, f)
    {
      var n :| a <= n < b && MatchesAt(world(n), pk, q, SortKey(f)) && world(n)[Key(pk, SortKey(f))] == f;
      assert StoredIn(world(n), pk, f);
    }
    forall f | f in features
      ensures !f.deleted && (q.visibility == {} || f.visibility in q.visibility)
      ensures forall name | name in q.properties ::
        name in f.properties && f.properties[name] == Str(q.properties[name])
      ensures q.bbox.Some? ==>
        && Geo.IsGeometry(f.geometry)
        && var e, box := Geo.Envelope(f.geometry), q.bbox.value;
        && e.Some?
        && e.value.west <= box.east && box.west <= e.value.east
        && e.value.south <= box.north && box.south <= e.value.north
    {
      MatchesMeans(q, f);
    }
  }

  // ---- The code -----------------------------------------------------------------------------------

  /** `serving` is what the store chooses in each read. `t1` ends the reads of the
      page, `t2` those of the count. `counted` is what a count that was not cut short
      has counted. */
  method QueryFeatures(world: World, serving: Serving, t0: nat, collectionId: string, organization: string,
                       limit: nat, cursor: Option<string>, q: Filter)
    returns (r: QueryResult, t1: nat, t2: nat, ghost capped: bool, ghost marks: seq<string>,
             ghost countCapped: bool, ghost counted: seq<Feature>)
    requires SoundWorld(world) && GeometriesOk(world, q.bbox)
    ensures t0 <= t1 <= t2
    ensures PageOk(world, t0, t1, MakePk(organization, collectionId), cursor, q, limit,
                   r.features, r.nextCursor, capped)
    ensures capped ==> CapSpent(world, t0, t1, MakePk(organization, collectionId), cursor, q, r.features, marks)
    ensures forall f | f in r.features ::
      && (cursor.Some? ==> Less(cursor.value, "FEATURE#" + f.id))
      && !f.deleted
      && (q.visibility == {} || f.visibility in q.visibility)
      && (forall name | name in q.properties :: name in f.properties && f.properties[name] == Str(q.properties[name]))
      && (q.bbox.Some? ==>
            && Geo.IsGeometry(f.geometry)
            && var e, box := Geo.Envelope(f.geometry), q.bbox.value;
            && e.Some?
            && e.value.west <= box.east && box.west <= e.value.east
            && e.value.south <= box.north && box.south <= e.value.north)
      && exists n | t0 <= n < t1 :: StoredIn(world(n), organization + "#COLLECTION#" + collectionId, f)
    ensures r.numberMatched.Some? <==> q.bbox.None?
    ensures q.bbox.None? && !countCapped ==>
      && r.numberMatched == Some(|counted|)
      && Progress(world, t0, t2, MakePk(organization, collectionId), cursor, q, counted, cursor, true)
    ensures t1 <= t0 + 50 && t2 <= t1 + 50 && (countCapped ==> t2 == t1 + 50)
    ensures Call(t0, t1, limit, r.features, r.nextCursor, capped)
      == CallOf(world, t0, MakePk(organization, collectionId), cursor, q, limit, serving)
  {
    hide Progress, PageOk, CapSpent, IsChunk, IsMatchChunk, GeometriesOk, HasGeometry, KeptOf, MakePk;
    hide StoreQuery, MatchPage, ReadOn, SoundTable;
    var pk := MakePk(organization, collectionId);
    var start := cursor;
    var collected: seq<Feature> := [];
    var hasMore := true;
    var pages := 0;
    t1 := t0;
    while |collected| < limit && hasMore && pages < MAX_QUERY_PAGES
      invariant t1 == t0 + pages && pages <= MAX_QUERY_PAGES
      invariant ReadOn(world, pk, q, limit, serving, Reading(collected, start, hasMore, t1), MAX_QUERY_PAGES - pages)
        == ReadAll(world, t0, pk, cursor, q, limit, serving)
    {
      pages := pages + 1;
      var c := StoreQuery(world(t1), pk, start, q, serving(t1));
      var items := c.items;
      if q.bbox.Some? {
        ChunkGeometries(world, t1, pk, start, q, c.items, c.last);
        items := FilterByBbox(c.items, q.bbox.value);
      }
      PageServed(world(t1), pk, start, q, serving(t1), items);
      ReadOneMore(world, pk, q, limit, serving, Reading(collected, start, hasMore, t1), MAX_QUERY_PAGES - pages + 1,
                  items, c.last);
      collected := collected + items;
      if c.last.Some? {
        start := c.last;
      } else {
        hasMore := false;
      }
      t1 := t1 + 1;
    }
    ReadingEnds(world, pk, q, limit, serving, Reading(collected, start, hasMore, t1), MAX_QUERY_PAGES - pages);
    marks := CallOfOk(world, t0, pk, cursor, q, limit, serving);

    var features := if |collected| > limit then collected[..limit] else collected;
    var next: Option<string> := None;
    if (hasMore || |collected| > limit) && features != [] {
      next := Some(MakeSk(features[|features| - 1].id));
    }
    capped := hasMore && |collected| < limit;
    PageMeans(world, t0, t1, organization, collectionId, cursor, q, limit, features, next, capped);

    var numberMatched := |collected|;
    counted := collected;
    t2 := t1;
    var countPages := 0;
    while hasMore && countPages < MAX_QUERY_PAGES
      invariant t2 == t1 + countPages && countPages <= MAX_QUERY_PAGES
      invariant q.bbox.None? ==> numberMatched == |counted|
      invariant q.bbox.None? ==> Progress(world, t0, t2, pk, cursor, q, counted, start, !hasMore)
    {
      countPages := countPages + 1;
      var c := StoreQuery(world(t2), pk, start, q, serving(t2));
      numberMatched := numberMatched + |c.items|;
      if q.bbox.None? {
        ChunkWithoutBox(world(t2), pk, start, q, c.items, c.last);
        ProgressStep(world, t0, t2, pk, cursor, q, counted, start, c.items, c.last);
        counted := counted + c.items;
      }
      if c.last.Some? {
        start := c.last;
      } else {
        hasMore := false;
      }
      t2 := t2 + 1;
    }
    countCapped := hasMore;
    if q.bbox.None? && !hasMore {
      ProgressDone(world, t0, t2, pk, cursor, q, counted, start);
    }
    r := QueryResult(features, next, if q.bbox.Some? then None else Some(numberMatched));
  }
}
