/** The client's walk over all pages. */
module Client {
  import opened Json
  import opened Features
  import opened Auth
  import opened Collections
  import opened SortKeys
  import opened Query
  import opened Paging
  import opened FixedTable
  import opened Items
  import Geo = Geometry

  /** Following the links found in a page. */
  method NextUrl(links: seq<Link>) returns (url: Option<Params>)
    ensures url.None? <==> forall i | 0 <= i < |links| :: links[i].rel != "next"
    ensures url.Some? ==> exists i | 0 <= i < |links| ::
      && links[i].rel == "next" && (forall j | 0 <= j < i :: links[j].rel != "next")
      && url.value == Params(Missing, links[i].cursor, links[i].organization, Missing, map[])
    ensures url == match FirstNext(links)
                   case None => None
                   case Some(link) => Some(Params(Missing, link.cursor, link.organization, Missing, map[]))
  {
    url := None;
    var i := 0;
    while i < |links|
      invariant i <= |links| && url == None && FirstNext(links) == FirstNext(links[i..])
      invariant forall j | 0 <= j < i :: links[j].rel != "next"
    {
      if links[i].rel == "next" {
        return Some(Params(Missing, links[i].cursor, links[i].organization, Missing, map[]));
      }
      assert links[i..][1..] == links[i + 1..];
      i := i + 1;
    }
  }

  /** The condition later pages are queried under: a `next` link names neither a
      box nor properties. */
  function LaterFilter(context: AuthContext): Filter {
    Filter(context.visibilityFilter, map[], None)
  }

  /** A parameter the client gives as a value. */
  function Given<T>(value: Option<T>): Raw<T> {
    if value.Some? then Parsed(value.value) else Missing
  }

  lemma GeoJsonsAppend(a: seq<Feature>, b: seq<Feature>)
    ensures GeoJsons(a + b) == GeoJsons(a) + GeoJsons(b)
  {
  }

  /** What the caller may see after the first page. */
  function AfterFirst(t: Table, pk: string, q: Filter, first: Call): seq<Feature> {
    if first.next.Some? then Rest(t, pk, q, first.next) else []
  }

  /** A walk that ended early has met the cap: as many items of the partition as the
      cap allows reads, none of them matching, lie in one row. */
  ghost predicate Misses(t: Table, pk: string, q: Filter, marks: seq<string>) {
    && |marks| == MAX_QUERY_PAGES && Ascending(marks)
    && forall k | k in marks :: InPartition(t, pk, k) && !MatchesAt(t, pk, q, k)
  }

  /** All pages: the first under the request's filter `q0`, then what is left under
      the filter `q` of the `next` links; cut short only when stuck on the cap. */
  ghost predicate AllPages(world: World, t: Table, pk: string, q0: Filter, q: Filter, first: Call, more: seq<Feature>,
                           stuck: bool, marks: seq<string>)
  {
    && CallOk(world, pk, q0, None, first)
    && more <= AfterFirst(t, pk, q, first)
    && (!stuck ==> more == AfterFirst(t, pk, q, first) && (first.next.None? ==> !first.capped))
    && (stuck ==> Misses(t, pk, if first.next.Some? then q else q0, marks))
  }

  /** The pages so far, with what is still to come after the cursor. */
  ghost predicate Following(t: Table, pk: string, q: Filter, first: Call, more: seq<Feature>, cursor: Option<string>) {
    first.next.Some? && cursor.Some? && Rest(t, pk, q, first.next) == more + Rest(t, pk, q, cursor)
  }

  lemma FirstPage(world: World, t: Table, pk: string, q0: Filter, q: Filter, first: Call, marks: seq<string>)
    requires Fixed(world, t) && CallOk(world, pk, q0, None, first)
    requires first.capped ==> CapSpent(world, first.a, first.b, pk, None, q0, first.features, marks)
    ensures first.next.Some? ==> Following(t, pk, q, first, [], first.next)
    ensures first.next.None? ==> AllPages(world, t, pk, q0, q, first, [], first.capped, marks)
  {
    if first.next.None? && first.capped {
      StuckNeedsMisses(world, t, first.a, first.b, pk, None, q0, marks);
    }
  }

  lemma LaterPage(world: World, t: Table, pk: string, q0: Filter, q: Filter, first: Call, more: seq<Feature>,
                  cursor: Option<string>, call: Call, marks: seq<string>)
    requires Fixed(world, t) && CallOk(world, pk, q0, None, first) && Following(t, pk, q, first, more, cursor)
    requires CallOk(world, pk, q, cursor, call)
    requires call.capped ==> CapSpent(world, call.a, call.b, pk, cursor, q, call.features, marks)
    ensures call.next.Some? ==> Following(t, pk, q, first, more + call.features, call.next)
    ensures call.next.Some? ==> |Rest(t, pk, q, call.next)| < |Rest(t, pk, q, cursor)|
    ensures call.next.None? ==> AllPages(world, t, pk, q0, q, first, more + call.features, call.capped, marks)
  {
    hide Matches, MatchesAt, Rest, PageOk, InPartition, Seen, Steady;
    PageSplitsRest(world, t, pk, q, cursor, call);
    if call.next.Some? {
      CursorMovesForward(world, pk, q, cursor, call);
      assert more + (call.features + Rest(t, pk, q, call.next)) == more + call.features + Rest(t, pk, q, call.next);
    } else if call.capped {
      StuckNeedsMisses(world, t, call.a, call.b, pk, cursor, q, marks);
    }
  }

  lemma FixedIsSound(world: World, t: Table)
    requires Fixed(world, t) && SoundTable(t)
    ensures SoundWorld(world) && GeometriesOk(world, None)
  {
  }

  /** What the client takes from an answer. */
  lemma AnswerGives(world: World, config: CollectionConfig, params: Params, context: AuthContext, page: Page,
                    call: Call, t2: nat, countCapped: bool, counted: seq<Feature>)
    requires Answers(world, config, params, context, page, call, t2, countCapped, counted)
    ensures CallOk(world, MakePk(context.organization, config.collectionId), FilterOf(context, params), params.cursor,
                   call)
    ensures page.features == GeoJsons(call.features)
    ensures FirstNext(page.links)
      == if call.next.Some? then Some(Link("next", call.next, context.organization)) else None
  {
  }

  /** What the client has gathered, with the cursor to go on from. */
  ghost predicate Gathered(world: World, t: Table, pk: string, q0: Filter, q: Filter, first: Call, more: seq<Feature>,
                           all: seq<Value>, next: Option<string>, stuck: bool, marks: seq<string>)
  {
    && all == GeoJsons(first.features + more)
    && CallOk(world, pk, q0, None, first)
    && if next.Some? then Following(t, pk, q, first, more, next)
       else AllPages(world, t, pk, q0, q, first, more, stuck, marks)
  }

  lemma GathersFirst(world: World, t: Table, pk: string, q0: Filter, q: Filter, first: Call, marks: seq<string>)
    requires Fixed(world, t) && CallOk(world, pk, q0, None, first)
    requires first.capped ==> CapSpent(world, first.a, first.b, pk, None, q0, first.features, marks)
    ensures Gathered(world, t, pk, q0, q, first, [], GeoJsons(first.features), first.next, first.capped, marks)
  {
    hide Fixed, CallOk, CapSpent, Following, AllPages;
    FirstPage(world, t, pk, q0, q, first, marks);
    assert first.features + [] == first.features;
  }

  lemma GathersMore(world: World, t: Table, pk: string, q0: Filter, q: Filter, first: Call, more: seq<Feature>,
                    all: seq<Value>, cursor: string, call: Call, stuck: bool, before: seq<string>, marks: seq<string>)
    requires Fixed(world, t) && Gathered(world, t, pk, q0, q, first, more, all, Some(cursor), stuck, before)
    requires CallOk(world, pk, q, Some(cursor), call)
    requires call.capped ==> CapSpent(world, call.a, call.b, pk, Some(cursor), q, call.features, marks)
    ensures Gathered(world, t, pk, q0, q, first, more + call.features, all + GeoJsons(call.features), call.next,
                     call.capped, marks)
    ensures call.next.Some? ==> |Rest(t, pk, q, call.next)| < |Rest(t, pk, q, Some(cursor))|
  {
    hide Fixed, CallOk, CapSpent, Following, AllPages, Rest;
    LaterPage(world, t, pk, q0, q, first, more, Some(cursor), call, marks);
    GeoJsonsAppend(first.features + more, call.features);
    assert first.features + (more + call.features) == first.features + more + call.features;
  }

  /** Over a table that stays fixed the client ends, with the features of the first
      page and then all that the caller may see after it. Unless the request itself
      has filters that later pages drop, that is the whole sorted listing, whatever
      the limit; or a prefix of it if the walk got stuck. */
  method GetAllFeatures(world: World, ghost t: Table, serving: Serving, config: CollectionConfig,
                        limit: Option<int>, organization: string, bbox: Option<Geo.Box>,
                        properties: map<string, string>,
                        claim: Option<Claim>, loads: string -> Option<seq<string>>)
    returns (r: Result<seq<Value>, int>, ghost first: Call, ghost more: seq<Feature>, ghost stuck: bool,
             ghost marks: seq<string>)
    requires Fixed(world, t) && SoundTable(t) && GeometriesOk(world, bbox)
    ensures !(properties.Keys <= config.propertiesSchema.Keys) ==> r == Err(400)
    ensures properties.Keys <= config.propertiesSchema.Keys ==>
      match ItemsContext(claim, loads, organization, config)
      case Err(status) => r == Err(status)
      case Ok(context) =>
        var pk := MakePk(context.organization, config.collectionId);
        var q0, q := Filter(context.visibilityFilter, properties, bbox), LaterFilter(context);
        && r == Ok(GeoJsons(first.features + more))
        && first == CallOf(world, 0, pk, None, q0, ParseLimit(Given(limit)), serving)
        && AllPages(world, t, pk, q0, q, first, more, stuck, marks)
        && (q0 == q ==> first.features + more <= Listing(t, pk, q))
        && (q0 == q && !stuck ==> r == Ok(GeoJsons(Listing(t, pk, q))))
  {
    hide ItemsContext, MakePk, Rest, Listing, AllPages, CallOf, CallOk, CapSpent, Answers, Gathered;
    hide ParseLimit, GeoJsons, FirstNext, SoundTable, SoundWorld, Fixed, GeometriesOk;
    FixedIsSound(world, t);
    ghost var resolved := ItemsContext(claim, loads, organization, config);
    ghost var pk, q0, q := "", Filter({}, map[], None), Filter({}, map[], None);
    if resolved.Ok? {
      var context := resolved.value;
      LinkKeepsContext(claim, loads, organization, config);
      pk := MakePk(context.organization, config.collectionId);
      q0, q := Filter(context.visibilityFilter, properties, bbox), LaterFilter(context);
    }
    var params := Params(Given(limit), None, organization, Given(bbox), properties);
    var url := Some(params);
    var all: seq<Value> := [];
    var now := 0;
    ghost var started := false;
    first, more, stuck, marks := Call(0, 0, 1, [], None, false), [], false, [];
    r := Ok([]);
    while url.Some?
      invariant !started ==> url == Some(params) && all == [] && now == 0
      invariant started ==>
        && ParamsValid(params, config) && resolved.Ok?
        && first == CallOf(world, 0, pk, None, q0, ParseLimit(params.limit), serving)
        && Gathered(world, t, pk, q0, q, first, more, all, if url.Some? then url.value.cursor else None, stuck, marks)
      invariant started && url.Some? ==>
        && url.value.cursor.Some?
        && url.value == Params(Missing, url.value.cursor, resolved.value.organization, Missing, map[])
      decreases !started, if url.Some? then 1 + |Rest(t, pk, q, url.value.cursor)| else 0
    {
      var page, t2, call, callMarks, countCapped, counted :=
        HandleItems(world, serving, now, Some(config), url.value, claim, loads);
      now := t2;
      if page.Err? {
        return Err(page.error), first, more, stuck, marks;
      }
      AnswerGives(world, config, url.value, resolved.value, page.value, call, t2, countCapped, counted);
      ghost var before := all;
      all := all + page.value.features;
      if !started {
        assert all == page.value.features;
        GathersFirst(world, t, pk, q0, q, call, callMarks);
        first := call;
        more := [];
      } else {
        GathersMore(world, t, pk, q0, q, first, more, before, url.value.cursor.value, call,
                    stuck, marks, callMarks);
        more := more + call.features;
      }
      stuck, marks := call.capped, callMarks;
      started := true;
      url := NextUrl(page.value.links);
    }
    GatheredAll(world, t, pk, q0, q, first, more, all, stuck, marks);
    r := Ok(all);
  }

  lemma GatheredAll(world: World, t: Table, pk: string, q0: Filter, q: Filter, first: Call, more: seq<Feature>,
                    all: seq<Value>, stuck: bool, marks: seq<string>)
    requires Fixed(world, t) && Gathered(world, t, pk, q0, q, first, more, all, None, stuck, marks)
    ensures all == GeoJsons(first.features + more) && AllPages(world, t, pk, q0, q, first, more, stuck, marks)
    ensures q0 == q ==> first.features + more <= Listing(t, pk, q)
    ensures q0 == q && !stuck ==> first.features + more == Listing(t, pk, q)
  {
    hide Fixed, AllPages, Listing;
    Unfiltered(world, t, pk, q0, q, first, more, stuck, marks);
  }

  /** With nothing but the visibility to filter by, all pages are the whole listing. */
  lemma Unfiltered(world: World, t: Table, pk: string, q0: Filter, q: Filter, first: Call, more: seq<Feature>,
                   stuck: bool, marks: seq<string>)
    requires Fixed(world, t) && AllPages(world, t, pk, q0, q, first, more, stuck, marks)
    ensures q0 == q ==> first.features + more <= Listing(t, pk, q)
    ensures q0 == q && !stuck ==> first.features + more == Listing(t, pk, q)
  {
    hide Matches, MatchesAt;
    if q0 == q {
      PageSplitsRest(world, t, pk, q, None, first);
    }
  }

  /** A request with a box or properties gets the sorted list of what matches them
      exactly when everything the caller may see beyond the first page matches
      them too: the `next` links have dropped both. */
  lemma FilteredIffRestMatches(world: World, t: Table, pk: string, q0: Filter, q: Filter, first: Call,
                               more: seq<Feature>,
                               marks: seq<string>)
    requires Fixed(world, t) && SoundTable(t) && AllPages(world, t, pk, q0, q, first, more, false, marks)
    requires q == Filter(q0.visibility, map[], None)
    ensures first.features + more == Listing(t, pk, q0) <==>
      (first.next.Some? ==> forall f | f in Rest(t, pk, q, first.next) :: Matches(q0, f))
  {
    hide HasGeometry, PageOk, Rest, Matches, Following;
    PageSplitsRest(world, t, pk, q0, None, first);
    if first.next.Some? {
      var wide, narrow := Rest(t, pk, q, first.next), Rest(t, pk, q0, first.next);
      RestSameIff(t, pk, q0, q, first.next);
      SamePrefix(first.features, wide, narrow);
    }
  }

  lemma SamePrefix<T>(before: seq<T>, a: seq<T>, b: seq<T>)
    ensures before + a == before + b <==> a == b
  {
    assert (before + a)[|before|..] == a && (before + b)[|before|..] == b;
  }

  /** Dropping a filter changes nothing exactly when everything left satisfies it. */
  lemma RestSameIff(t: Table, pk: string, q0: Filter, q: Filter, after: Option<string>)
    requires SoundTable(t) && q == Filter(q0.visibility, map[], None)
    ensures Rest(t, pk, q, after) == Rest(t, pk, q0, after) <==> forall f | f in Rest(t, pk, q, after) :: Matches(q0, f)
  {
    hide HasGeometry, Rest, SoundTable;
    RestHas(t, pk, q, after);
    RestHas(t, pk, q0, after);
    var wide, narrow := Rest(t, pk, q, after), Rest(t, pk, q0, after);
    if forall f | f in wide :: Matches(q0, f) {
      SameFeatures(wide, narrow);
    }
  }

  lemma SameFeatures(a: seq<Feature>, b: seq<Feature>)
    requires Ascending(Keys(a)) && Ascending(Keys(b)) && forall f :: f in a <==> f in b
    ensures a == b
  {
    KeysWithin(a, b);
    KeysWithin(b, a);
    AscendingUnique(Keys(a), Keys(b));
    forall i | 0 <= i < |a| ensures a[i] == b[i] {
      assert a[i] in b;
      var j :| 0 <= j < |b| && b[j] == a[i];
      assert Keys(a)[i] == Keys(b)[i];
      LessIrreflexive(Keys(b)[i]);
    }
  }

  lemma KeysWithin(a: seq<Feature>, b: seq<Feature>)
    requires forall f | f in a :: f in b
    ensures forall k | k in Keys(a) :: k in Keys(b)
  {
    forall k | k in Keys(a) ensures k in Keys(b) {
      var i :| 0 <= i < |a| && Keys(a)[i] == k;
      assert a[i] in b;
      var j :| 0 <= j < |b| && b[j] == a[i];
      assert Keys(b)[j] == k;
    }
  }
}
