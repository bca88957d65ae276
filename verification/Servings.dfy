/** What the store's choices can do to a call over a table that stays fixed: when the
    page cap can end a walk early, and when dropped filters can spoil a result. */
module Servings {
  import opened Json
  import opened Features
  import opened Writes
  import opened SortKeys
  import opened Query
  import opened Paging
  import opened FixedTable
  import opened Client

  // ---- The cap -----------------------------------------------------------------------------------

  ghost predicate BeforeMatches(t: Table, pk: string, q: Filter, after: Option<string>, sk: string) {
    forall m | MatchesAt(t, pk, q, m) && After(after, m) :: Less(sk, m)
  }

  /** The items of the partition after the cursor and before any match after it. */
  ghost function MissesAfter(t: Table, pk: string, q: Filter, after: Option<string>): set<string> {
    set sk | sk in Candidates(t, pk, after) && BeforeMatches(t, pk, q, after, sk)
  }

  /** Served like this, the call ends on the cap with nothing: no feature, and hence no
      cursor to go on from. */
  ghost predicate StuckUnder(world: World, t0: nat, pk: string, cursor: Option<string>, q: Filter, limit: nat,
                             serving: Serving) {
    var c := CallOf(world, t0, pk, cursor, q, limit, serving);
    c.capped && c.features == [] && c.next == None
  }

  lemma Smaller<T>(a: set<T>, b: set<T>)
    requires a <= b
    ensures |a| <= |b|
  {
    if a != {} {
      var x :| x in a;
      Smaller(a - {x}, b - {x});
    }
  }

  function OneByOne(n: nat): Choice {
    Choice(1, true)
  }

  /** One item evaluated is the first one. */
  lemma OneEvaluated(t: Table, pk: string, start: Option<string>, q: Filter)
    requires Candidates(t, pk, start) != {}
    ensures var last := MatchPage(t, pk, start, q, Choice(1, true)).last;
      last.Some? && IsLeast(last.value, Candidates(t, pk, start))
  {
  }

  /** While misses are ahead, a page of one item finds nothing and passes one of them. */
  lemma OneMiss(t: Table, pk: string, start: Option<string>, q: Filter)
    requires SoundTable(t) && MissesAfter(t, pk, q, start) != {}
    ensures var c := MatchPage(t, pk, start, q, Choice(1, true));
      c.items == [] && c.last.Some? && |MissesAfter(t, pk, q, start)| <= |MissesAfter(t, pk, q, c.last)| + 1
  {
    hide MatchPage, Candidates, Matches, SoundTable;
    var c := MatchPage(t, pk, start, q, Choice(1, true));
    var misses := MissesAfter(t, pk, q, start);
    var miss :| miss in misses;
    OneEvaluated(t, pk, start, q);
    MatchPageIsChunk(t, pk, start, q, Choice(1, true));
    var last := c.last.value;
    forall m | MatchesAt(t, pk, q, m) && After(start, m) ensures Less(last, m) {
      if last != miss {
        LessTransitive(last, miss, m);
      }
    }
    NothingUpTo(t, pk, start, q, c.items, c.last);
    CandidatesAre(t, pk, start);
    CandidatesAre(t, pk, c.last);
    forall k | k in misses - {last} ensures k in MissesAfter(t, pk, q, c.last) {
      forall m | MatchesAt(t, pk, q, m) && After(c.last, m) ensures Less(k, m) {
        if start.Some? {
          LessTransitive(start.value, last, m);
        }
      }
    }
    Smaller(misses - {last}, MissesAfter(t, pk, q, c.last));
  }

  lemma NothingUpTo(t: Table, pk: string, start: Option<string>, q: Filter, items: seq<Feature>, last: Option<string>)
    requires IsMatchChunk(t, pk, start, q, items, last) && last.Some?
    requires forall m | MatchesAt(t, pk, q, m) && After(start, m) :: Less(last.value, m)
    ensures items == []
  {
    HasHead(items);
  }

  lemma HasHead(items: seq<Feature>)
    ensures items != [] ==> items[0] in items
  {
  }

  lemma {:induction false} OneByOneStaysStuck(world: World, t: Table, pk: string, q: Filter, limit: nat, r: Reading,
                                              n: nat)
    requires Fixed(world, t) && SoundTable(t) && limit > 0
    requires r.collected == [] && r.hasMore && |MissesAfter(t, pk, q, r.start)| >= n
    ensures var r' := ReadOn(world, pk, q, limit, OneByOne, r, n); r'.collected == [] && r'.hasMore
    decreases n
  {
    hide MatchPage, MissesAfter, SoundTable;
    if n > 0 {
      OneMiss(t, pk, r.start, q);
      var c := MatchPage(world(r.now), pk, r.start, q, OneByOne(r.now));
      OneByOneStaysStuck(world, t, pk, q, limit, Reading([], c.last, true, r.now + 1), n - 1);
    }
  }

  lemma {:induction false} ReadOnExtends(world: World, pk: string, q: Filter, limit: nat, serving: Serving,
                                         r: Reading, n: nat)
    ensures r.collected <= ReadOn(world, pk, q, limit, serving, r, n).collected
    ensures !r.hasMore ==> !ReadOn(world, pk, q, limit, serving, r, n).hasMore
    decreases n
  {
    hide MatchPage;
    if |r.collected| < limit && r.hasMore && n > 0 {
      var c := MatchPage(world(r.now), pk, r.start, q, serving(r.now));
      var r' := Reading(r.collected + c.items, if c.last.Some? then c.last else r.start, c.last.Some?, r.now + 1);
      ReadOnExtends(world, pk, q, limit, serving, r', n - 1);
    }
  }

  /** A page that finds nothing and leaves more passes at least one miss. */
  lemma EmptyPagePassesMiss(t: Table, pk: string, start: Option<string>, q: Filter, last: Option<string>)
    requires IsMatchChunk(t, pk, start, q, [], last) && last.Some?
    ensures |MissesAfter(t, pk, q, start)| >= |MissesAfter(t, pk, q, last)| + 1
  {
    hide Candidates, Matches;
    CandidatesAre(t, pk, start);
    CandidatesAre(t, pk, last);
    var before, after := MissesAfter(t, pk, q, start), MissesAfter(t, pk, q, last);
    forall m | MatchesAt(t, pk, q, m) && After(start, m) ensures After(last, m) {
      assert m !in Keys([]);
    }
    LessIrreflexive(last.value);
    forall k | k in after ensures k in before {
      if start.Some? {
        LessTransitive(start.value, last.value, k);
      }
    }
    Smaller(after + {last.value}, before);
  }

  lemma {:induction false} StuckPassesMisses(world: World, t: Table, pk: string, q: Filter, limit: nat,
                                             serving: Serving,
                                             r: Reading, n: nat)
    requires Fixed(world, t) && SoundTable(t) && limit > 0 && r.collected == [] && r.hasMore
    requires var r' := ReadOn(world, pk, q, limit, serving, r, n); r'.collected == [] && r'.hasMore
    ensures |MissesAfter(t, pk, q, r.start)| >= n
    decreases n
  {
    hide MatchPage, MissesAfter, SoundTable, IsMatchChunk;
    if n > 0 {
      var c := MatchPage(world(r.now), pk, r.start, q, serving(r.now));
      var r' := Reading(r.collected + c.items, if c.last.Some? then c.last else r.start, c.last.Some?, r.now + 1);
      ReadOnExtends(world, pk, q, limit, serving, r', n - 1);
      assert c.items == [] && c.last.Some?;
      MatchPageIsChunk(t, pk, r.start, q, serving(r.now));
      EmptyPagePassesMiss(t, pk, r.start, q, c.last);
      StuckPassesMisses(world, t, pk, q, limit, serving, r', n - 1);
    }
  }

  /** The store can leave a call on the cap with nothing found if and only if at least
      as many items as the cap allows reads lie after the cursor and before any
      match: items the store's conditions reject or items outside the box. */
  lemma StuckIffMisses(world: World, t: Table, t0: nat, pk: string, cursor: Option<string>, q: Filter, limit: nat)
    requires Fixed(world, t) && SoundTable(t) && limit > 0
    ensures (exists serving :: StuckUnder(world, t0, pk, cursor, q, limit, serving)) <==>
      |MissesAfter(t, pk, q, cursor)| >= 50
  {
    hide MissesAfter, ReadOn, SoundTable;
    var r := Reading([], cursor, true, t0);
    if serving :| StuckUnder(world, t0, pk, cursor, q, limit, serving) {
      StuckPassesMisses(world, t, pk, q, limit, serving, r, MAX_QUERY_PAGES);
    }
    if |MissesAfter(t, pk, q, cursor)| >= MAX_QUERY_PAGES {
      OneByOneStaysStuck(world, t, pk, q, limit, r, MAX_QUERY_PAGES);
      assert StuckUnder(world, t0, pk, cursor, q, limit, OneByOne);
    }
  }

  // ---- Dropped filters ---------------------------------------------------------------------------------

  /** The client's result when the first call is served like this and nothing gets stuck. */
  function ResultOf(world: World, t: Table, pk: string, q0: Filter, q: Filter, limit: nat,
                    serving: Serving): seq<Feature> {
    var first := CallOf(world, 0, pk, None, q0, limit, serving);
    first.features + AfterFirst(t, pk, q, first)
  }

  ghost predicate Uncapped(world: World, pk: string, q0: Filter, limit: nat, serving: Serving) {
    !CallOf(world, 0, pk, None, q0, limit, serving).capped
  }

  /** Everything the filter `q` lets through beyond the `limit`-th match of `q0` matches too. */
  ghost predicate MatchesBeyond(t: Table, pk: string, q0: Filter, q: Filter, limit: nat)
    requires 0 < limit <= |Listing(t, pk, q0)|
  {
    forall f | f in Rest(t, pk, q, Some(SortKey(Listing(t, pk, q0)[limit - 1]))) :: Matches(q0, f)
  }

  /** A first page that did not meet the cap has all matches, or the first `limit`. */
  lemma FirstPageIs(world: World, t: Table, pk: string, q0: Filter, limit: nat, serving: Serving)
    requires Fixed(world, t) && SoundTable(t) && limit > 0 && Uncapped(world, pk, q0, limit, serving)
    ensures var c, all := CallOf(world, 0, pk, None, q0, limit, serving), Listing(t, pk, q0);
      && CallOk(world, pk, q0, None, c)
      && (c.next.None? ==> c.features == all && |all| <= limit)
      && (c.next.Some? ==>
            && |all| >= limit && c.features == all[..limit] && c.next == Some(SortKey(all[limit - 1]))
            && all == c.features + Rest(t, pk, q0, c.next))
  {
    hide ReadAll, Rest, Matches, SoundTable, Seen, Steady;
    var _ := CallOfOk(world, 0, pk, None, q0, limit, serving);
    PageSplitsRest(world, t, pk, q0, None, CallOf(world, 0, pk, None, q0, limit, serving));
  }

  /** How far the store must evaluate to come to a given item. */
  lemma EvaluatedUpTo(t: Table, pk: string, q: Filter, sk: string) returns (n: nat)
    requires InPartition(t, pk, sk)
    ensures MatchPage(t, pk, None, q, Choice(n, true)).last == Some(sk)
  {
    CandidatesAre(t, pk, None);
    var keys := Sorted(Candidates(t, pk, None));
    assert sk in keys;
    var i :| 0 <= i < |keys| && keys[i] == sk;
    n := i + 1;
  }

  /** A page that ends in the `limit`-th match holds the first `limit` matches. */
  lemma ChunkUpToMatch(t: Table, pk: string, q: Filter, items: seq<Feature>, limit: nat)
    requires 0 < limit <= |ListedKeys(t, pk, q, None)|
    requires IsMatchChunk(t, pk, None, q, items, Some(ListedKeys(t, pk, q, None)[limit - 1]))
    ensures |items| == limit && Keys(items) == ListedKeys(t, pk, q, None)[..limit]
  {
    hide MatchesAt, Matches;
    var all, ks := ListedKeys(t, pk, q, None), Keys(items);
    var last := all[limit - 1];
    forall k ensures k in ks <==> k in all[..limit] {
      MatchingKeysHas(t, pk, q, None, k);
      if k in ks {
        var i :| 0 <= i < |items| && ks[i] == k;
        assert items[i] in items;
        assert k in all;
        var j :| 0 <= j < |all| && all[j] == k;
        LaterIsGreater(all, limit, j);
        assert j < limit ==> all[..limit][j] == k;
      }
      if k in all[..limit] {
        var j :| 0 <= j < limit && all[j] == k;
        assert k in all;
        NotBeyond(all, j, limit - 1);
      }
    }
    AscendingUnique(ks, all[..limit]);
  }

  lemma NotBeyond(keys: seq<string>, i: nat, j: nat)
    requires Ascending(keys) && i <= j < |keys|
    ensures UpTo(keys[i], Some(keys[j]))
  {
    if i < j {
      LessAsymmetric(keys[i], keys[j]);
    } else {
      LessIrreflexive(keys[i]);
    }
  }

  /** A call whose first page holds as many features as asked for and leaves more. */
  lemma OnePageCall(world: World, pk: string, q: Filter, limit: nat, serving: Serving, items: seq<Feature>,
                    last: string)
    requires MatchPage(world(0), pk, None, q, serving(0)) == Chunk(items, Some(last))
    requires |items| == limit > 0
    ensures CallOf(world, 0, pk, None, q, limit, serving)
      == Call(0, 1, limit, items, Some(SortKey(items[limit - 1])), false)
  {
    hide MatchPage, ReadOn;
    var r := Reading([], None, true, 0);
    assert [] + items == items;
    ReadOneMore(world, pk, q, limit, serving, r, MAX_QUERY_PAGES, items, Some(last));
    ReadingEnds(world, pk, q, limit, serving, Reading(items, Some(last), true, 1), MAX_QUERY_PAGES - 1);
  }

  /** The store can serve the first call so that it ends exactly at the `limit`-th match. */
  lemma ServedUpToLimit(world: World, t: Table, pk: string, q0: Filter, limit: nat) returns (serving: Serving)
    requires Fixed(world, t) && SoundTable(t) && 0 < limit <= |Listing(t, pk, q0)|
    ensures var c := CallOf(world, 0, pk, None, q0, limit, serving);
      !c.capped && c.next == Some(SortKey(Listing(t, pk, q0)[limit - 1]))
  {
    hide Matches, MatchPage, IsMatchChunk, SoundTable, CallOf, Listing, ListedKeys;
    var keys := ListedKeys(t, pk, q0, None);
    KeyOfListed(t, pk, q0, limit - 1);
    ListedKeysPresent(t, pk, q0, None);
    assert keys[limit - 1] in keys;
    var n := EvaluatedUpTo(t, pk, q0, keys[limit - 1]);
    serving := (_: nat) => Choice(n, true);
    var c := MatchPage(t, pk, None, q0, Choice(n, true));
    MatchPageIsChunk(t, pk, None, q0, Choice(n, true));
    ChunkUpToMatch(t, pk, q0, c.items, limit);
    OnePageCall(world, pk, q0, limit, serving, c.items, keys[limit - 1]);
    assert Keys(c.items)[limit - 1] == keys[limit - 1];
  }

  lemma KeyOfListed(t: Table, pk: string, q: Filter, i: nat)
    requires SoundTable(t) && i < |Listing(t, pk, q)|
    ensures i < |ListedKeys(t, pk, q, None)| == |Listing(t, pk, q)|
    ensures SortKey(Listing(t, pk, q)[i]) == ListedKeys(t, pk, q, None)[i]
  {
    hide Matches;
    ListedKeysPresent(t, pk, q, None);
    var k := ListedKeys(t, pk, q, None)[i];
    assert k in ListedKeys(t, pk, q, None);
    assert SoundItem(Key(pk, k), t[Key(pk, k)]);
  }

  /** The `next` links drop the request's box and properties. The client still gets
      exactly the filtered list, however the store serves the first call within the
      cap, if and only if there are fewer matches than the limit, or everything the
      caller may see beyond the `limit`-th match matches as well. */
  lemma FiltersSafeIff(world: World, t: Table, pk: string, q0: Filter, q: Filter, limit: nat)
    requires Fixed(world, t) && SoundTable(t) && limit > 0 && q == Filter(q0.visibility, map[], None)
    ensures (forall serving | Uncapped(world, pk, q0, limit, serving) ::
               ResultOf(world, t, pk, q0, q, limit, serving) == Listing(t, pk, q0))
      <==> |Listing(t, pk, q0)| < limit || MatchesBeyond(t, pk, q0, q, limit)
  {
    hide CallOf, Rest, Matches, SoundTable, Listing;
    if |Listing(t, pk, q0)| < limit || MatchesBeyond(t, pk, q0, q, limit) {
      forall serving | Uncapped(world, pk, q0, limit, serving)
        ensures ResultOf(world, t, pk, q0, q, limit, serving) == Listing(t, pk, q0)
      {
        FirstPageIs(world, t, pk, q0, limit, serving);
        var c := CallOf(world, 0, pk, None, q0, limit, serving);
        if c.next.Some? {
          RestSameIff(t, pk, q0, q, c.next);
        }
      }
    } else {
      var serving := ServedUpToLimit(world, t, pk, q0, limit);
      assert Uncapped(world, pk, q0, limit, serving);
      FirstPageIs(world, t, pk, q0, limit, serving);
      var c := CallOf(world, 0, pk, None, q0, limit, serving);
      RestSameIff(t, pk, q0, q, c.next);
      SamePrefix(c.features, Rest(t, pk, q, c.next), Rest(t, pk, q0, c.next));
    }
  }
}
