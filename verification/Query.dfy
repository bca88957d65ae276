/** The paginated query: one call of the data access layer, over a table that
    other requests may change between any two of its store reads. */
module Query {
  import opened Json
  import opened Features
  import opened Writes
  import opened SortKeys
  import Geo = Geometry

  /** The table as each store read finds it: `world(n)` is the table at the n-th read. */
  type World = nat -> Table

  ghost predicate SoundTable(t: Table) {
    forall k | k in t :: SoundItem(k, t[k])
  }

  ghost predicate SoundWorld(world: World) {
    forall n :: SoundTable(world(n))
  }

  // ---- What a query asks for -------------------------------------------------------------

  /** The conditions the store evaluates, and the box checked afterwards. An empty
      visibility set stands for no visibility condition. */
  datatype Filter = Filter(visibility: set<string>, properties: map<string, string>, bbox: Option<Geo.Box>)

  predicate StoreMatches(q: Filter, f: Feature) {
    && !f.deleted
    && (q.visibility != {} ==> f.visibility in q.visibility)
    && forall name | name in q.properties :: name in f.properties && f.properties[name] == Str(q.properties[name])
  }

  predicate HasGeometry(f: Feature) {
    f.geometry.Null? || Geo.IsGeometry(f.geometry)
  }

  predicate InBox(box: Geo.Box, f: Feature) {
    HasGeometry(f) && Geo.Kept(f.geometry, box)
  }

  predicate BoxMatches(bbox: Option<Geo.Box>, f: Feature) {
    bbox.Some? ==> InBox(bbox.value, f)
  }

  predicate Matches(q: Filter, f: Feature) {
    StoreMatches(q, f) && BoxMatches(q.bbox, f)
  }

  /** What a feature must be to match: not deleted, of a visibility asked for if any
      are, with each property asked for equal to its text, and, with a box, of an
      envelope that overlaps it. */
  lemma MatchesMeans(q: Filter, f: Feature)
    ensures Matches(q, f) <==>
      && !f.deleted
      && (q.visibility == {} || f.visibility in q.visibility)
      && (forall name | name in q.properties :: name in f.properties && f.properties[name] == Str(q.properties[name]))
      && (q.bbox.Some? ==>
            && Geo.IsGeometry(f.geometry)
            && var e, box := Geo.Envelope(f.geometry), q.bbox.value;
            && e.Some?
            && e.value.west <= box.east && box.west <= e.value.east
            && e.value.south <= box.north && box.south <= e.value.north)
  {
  }

  /** With a box, the geometries are taken to be ones the envelope can be computed of. */
  ghost predicate GeometriesOk(world: World, bbox: Option<Geo.Box>) {
    bbox.Some? ==> forall n, k | k in world(n) :: HasGeometry(world(n)[k])
  }

  // ---- Keys ---------------------------------------------------------------------------------

  function SortKey(f: Feature): string {
    MakeSk(f.id)
  }

  function Keys(items: seq<Feature>): (ks: seq<string>)
    ensures |ks| == |items| && forall i | 0 <= i < |items| :: ks[i] == SortKey(items[i])
  {
    seq(|items|, i requires 0 <= i < |items| => SortKey(items[i]))
  }

  predicate After(start: Option<string>, sk: string) {
    start.Some? ==> Less(start.value, sk)
  }

  /** Within the part of the partition up to `end`; None is its very end. */
  predicate UpTo(sk: string, end: Option<string>) {
    end.Some? ==> !Less(end.value, sk)
  }

  predicate InPartition(t: Table, pk: string, sk: string) {
    Key(pk, sk) in t && SORT_PREFIX <= sk
  }

  predicate MatchesAt(t: Table, pk: string, q: Filter, sk: string) {
    InPartition(t, pk, sk) && Matches(q, t[Key(pk, sk)])
  }

  lemma NotLessTransitive(a: string, b: string, c: string)
    requires !Less(b, a) && Less(b, c)
    ensures Less(a, c)
  {
    LessTotal(a, b);
    if Less(a, b) {
      LessTransitive(a, b, c);
    }
  }

  // ---- The store's contract --------------------------------------------------------------------

  /** The items of the partition of `t` after `start` and up to `last` that
      satisfy the store's conditions, in key order. */
  ghost predicate IsChunk(t: Table, pk: string, start: Option<string>, q: Filter, items: seq<Feature>,
                          last: Option<string>) {
    && Ascending(Keys(items))
    && (forall f | f in items :: After(start, SortKey(f)) && UpTo(SortKey(f), last)
          && InPartition(t, pk, SortKey(f)) && t[Key(pk, SortKey(f))] == f && StoreMatches(q, f))
    && (forall sk | InPartition(t, pk, sk) && StoreMatches(q, t[Key(pk, sk)]) && After(start, sk) && UpTo(sk, last) ::
          sk in Keys(items))
    && (last.Some? ==> InPartition(t, pk, last.value) && After(start, last.value))
  }

  function Candidates(t: Table, pk: string, start: Option<string>): set<string> {
    set k | k in t && k.pk == pk && SORT_PREFIX <= k.sk && After(start, k.sk) :: k.sk
  }

  /** The items under the given keys that satisfy the store's conditions. */
  function Select(t: Table, pk: string, q: Filter, keys: seq<string>): seq<Feature>
    requires forall k | k in keys :: InPartition(t, pk, k)
  {
    if keys == [] then []
    else
      var k := keys[|keys| - 1];
      assert k in keys && InPartition(t, pk, k);
      var f := t[Key(pk, k)];
      Select(t, pk, q, keys[..|keys| - 1]) + if StoreMatches(q, f) then [f] else []
  }

  lemma {:induction false} SelectHas(t: Table, pk: string, q: Filter, keys: seq<string>, f: Feature)
    requires SoundTable(t) && forall k | k in keys :: InPartition(t, pk, k)
    ensures f in Select(t, pk, q, keys) <==>
      SortKey(f) in keys && t[Key(pk, SortKey(f))] == f && StoreMatches(q, f)
  {
    if keys != [] {
      var front, k := keys[..|keys| - 1], keys[|keys| - 1];
      SelectHas(t, pk, q, front, f);
      assert keys == front + [k];
      assert k in keys;
      assert SortKey(t[Key(pk, k)]) == k;
    }
  }

  lemma {:induction false} SelectAscends(t: Table, pk: string, q: Filter, keys: seq<string>)
    requires SoundTable(t) && (forall k | k in keys :: InPartition(t, pk, k)) && Ascending(keys)
    ensures Ascending(Keys(Select(t, pk, q, keys)))
  {
    if keys != [] {
      var front, k := keys[..|keys| - 1], keys[|keys| - 1];
      SelectAscends(t, pk, q, front);
      var items := Select(t, pk, q, front);
      assert k in keys;
      assert SortKey(t[Key(pk, k)]) == k;
      forall i | 0 <= i < |items| ensures Less(SortKey(items[i]), k) {
        assert items[i] in items;
        SelectHas(t, pk, q, front, items[i]);
        var j :| 0 <= j < |front| && front[j] == SortKey(items[i]);
        assert Less(keys[j], keys[|keys| - 1]);
      }
    }
  }

  /** What is left open to the store in one call: how many items it evaluates, and
      whether it reports a last key although nothing is left. */
  datatype Choice = Choice(evaluated: nat, tellsEnd: bool)

  /** The store's choices, by the number of the read. */
  type Serving = nat -> Choice

  datatype Chunk = Chunk(items: seq<Feature>, last: Option<string>)

  /** At least one item is evaluated when there is one. */
  function Evaluated(choice: Choice, available: nat): (n: nat)
    ensures n <= available && (available > 0 ==> n > 0)
  {
    if choice.evaluated > available then available
    else if choice.evaluated == 0 && available > 0 then 1
    else choice.evaluated
  }

  /** One call of the store: it evaluates some items after `start` in key order, at
      least one when there is one, keeps those that satisfy the conditions, and
      gives the last key evaluated, which it may do even when nothing is left. */
  function StoreQuery(t: Table, pk: string, start: Option<string>, q: Filter, choice: Choice): (c: Chunk)
    ensures SoundTable(t) ==> IsChunk(t, pk, start, q, c.items, c.last)
    ensures SoundTable(t) ==> forall f | f in c.items ::
      && Key(pk, "FEATURE#" + f.id) in t && t[Key(pk, "FEATURE#" + f.id)] == f
      && (start.Some? ==> Less(start.value, "FEATURE#" + f.id))
      && !f.deleted && (q.visibility == {} || f.visibility in q.visibility)
      && forall name | name in q.properties :: name in f.properties && f.properties[name] == Str(q.properties[name])
  {
    var keys := Sorted(Candidates(t, pk, start));
    var evaluated := Evaluated(choice, |keys|);
    var some := keys[..evaluated];
    CandidatesAre(t, pk, start);
    assert forall k | k in some :: k in keys && InPartition(t, pk, k);
    var last := if evaluated < |keys| || (choice.tellsEnd && evaluated > 0) then Some(keys[evaluated - 1]) else None;
    ServedIsChunk(t, pk, start, q, keys, evaluated, some, last);
    Chunk(Select(t, pk, q, some), last)
  }

  lemma ServedIsChunk(t: Table, pk: string, start: Option<string>, q: Filter,
                      keys: seq<string>, evaluated: nat, some: seq<string>, last: Option<string>)
    requires keys == Sorted(Candidates(t, pk, start)) && evaluated <= |keys|
    requires some == keys[..evaluated] && forall k | k in some :: InPartition(t, pk, k)
    requires last == None ==> evaluated == |keys|
    requires last.Some? ==> evaluated > 0 && last.value == keys[evaluated - 1]
    ensures SoundTable(t) ==> IsChunk(t, pk, start, q, Select(t, pk, q, some), last)
  {
    if SoundTable(t) {
      SelectIsChunk(t, pk, start, q, keys, evaluated, some, last);
    }
  }

  lemma CandidatesAre(t: Table, pk: string, start: Option<string>)
    ensures forall sk :: sk in Candidates(t, pk, start) <==> InPartition(t, pk, sk) && After(start, sk)
  {
    forall sk | InPartition(t, pk, sk) && After(start, sk) ensures sk in Candidates(t, pk, start) {
      assert Key(pk, sk).sk in Candidates(t, pk, start);
    }
  }

  lemma SelectIsChunk(t: Table, pk: string, start: Option<string>, q: Filter,
                      keys: seq<string>, evaluated: nat, some: seq<string>, last: Option<string>)
    requires SoundTable(t)
    requires keys == Sorted(Candidates(t, pk, start)) && evaluated <= |keys|
    requires some == keys[..evaluated] && forall k | k in some :: InPartition(t, pk, k)
    requires last == None ==> evaluated == |keys|
    requires last.Some? ==> evaluated > 0 && last.value == keys[evaluated - 1]
    ensures IsChunk(t, pk, start, q, Select(t, pk, q, some), last)
  {
    hide StoreMatches, SoundTable, Candidates, Sorted, Select;
    var items := Select(t, pk, q, some);
    CandidatesAre(t, pk, start);
    ChunkBounds(t, pk, start, keys, evaluated, last);
    SelectAscends(t, pk, q, some);
    forall f | f in items
      ensures After(start, SortKey(f)) && UpTo(SortKey(f), last)
      ensures InPartition(t, pk, SortKey(f)) && t[Key(pk, SortKey(f))] == f && StoreMatches(q, f)
    {
      SelectHas(t, pk, q, some, f);
    }
    forall sk | InPartition(t, pk, sk) && StoreMatches(q, t[Key(pk, sk)]) && After(start, sk) && UpTo(sk, last)
      ensures sk in Keys(items)
    {
      SelectHasKey(t, pk, q, some, sk);
    }
  }

  lemma SelectHasKey(t: Table, pk: string, q: Filter, keys: seq<string>, sk: string)
    requires SoundTable(t) && forall k | k in keys :: InPartition(t, pk, k)
    requires sk in keys && InPartition(t, pk, sk) && StoreMatches(q, t[Key(pk, sk)])
    ensures sk in Keys(Select(t, pk, q, keys))
  {
    hide StoreMatches;
    var f, items := t[Key(pk, sk)], Select(t, pk, q, keys);
    assert SoundItem(Key(pk, sk), f);
    SelectHas(t, pk, q, keys, f);
    var i :| 0 <= i < |items| && items[i] == f;
    assert Keys(items)[i] == sk;
  }

  lemma LaterIsGreater(keys: seq<string>, n: nat, j: nat)
    requires Ascending(keys) && n <= |keys| && j < |keys|
    ensures 0 < n <= j ==> Less(keys[n - 1], keys[j])
  {
  }

  /** The evaluated keys are the candidates up to the last key reported. */
  lemma ChunkBounds(t: Table, pk: string, start: Option<string>, keys: seq<string>, evaluated: nat,
                    last: Option<string>)
    requires keys == Sorted(Candidates(t, pk, start)) && evaluated <= |keys|
    requires last == None ==> evaluated == |keys|
    requires last.Some? ==> evaluated > 0 && last.value == keys[evaluated - 1]
    ensures forall sk | sk in keys[..evaluated] :: sk in Candidates(t, pk, start) && UpTo(sk, last)
    ensures forall sk | sk in Candidates(t, pk, start) && UpTo(sk, last) :: sk in keys[..evaluated]
    ensures last.Some? ==> last.value in Candidates(t, pk, start)
  {
    forall sk | sk in keys[..evaluated] ensures sk in Candidates(t, pk, start) && UpTo(sk, last) {
      var j :| 0 <= j < evaluated && keys[j] == sk;
      assert sk in keys;
      if last.Some? {
        if j < evaluated - 1 {
          LessAsymmetric(sk, last.value);
        } else {
          LessIrreflexive(sk);
        }
      }
    }
    forall sk | sk in Candidates(t, pk, start) && UpTo(sk, last) ensures sk in keys[..evaluated] {
      assert sk in keys;
      var j :| 0 <= j < |keys| && keys[j] == sk;
      LaterIsGreater(keys, evaluated, j);
    }
    if last.Some? {
      assert last.value in keys;
    }
  }

  // ---- The bounding-box filter ------------------------------------------------------------------

  function KeptOf(items: seq<Feature>, box: Geo.Box): seq<Feature> {
    if items == [] then []
    else
      var f := items[|items| - 1];
      KeptOf(items[..|items| - 1], box) + if InBox(box, f) then [f] else []
  }

  /** Kept, in their order, are exactly the features with a geometry whose envelope
      overlaps the box. */
  method FilterByBbox(features: seq<Feature>, box: Geo.Box) returns (result: seq<Feature>)
    requires forall f | f in features :: HasGeometry(f)
    ensures result == KeptOf(features, box)
    ensures forall f :: f in result <==>
      && f in features && Geo.IsGeometry(f.geometry)
      && var e := Geo.Envelope(f.geometry);
      && e.Some?
      && e.value.west <= box.east && box.west <= e.value.east
      && e.value.south <= box.north && box.south <= e.value.north
  {
    result := [];
    for i := 0 to |features|
      invariant result == KeptOf(features[..i], box)
    {
      var feature := features[i];
      assert feature in features;
      assert features[..i + 1][..i] == features[..i];
      if !feature.geometry.Null? {
        var positions := Geo.ExtractAllPositions(feature.geometry);
        var envelope := Geo.EnvelopeOf(positions);
        if envelope.Some?
           && envelope.value.west <= box.east && envelope.value.east >= box.west
           && envelope.value.south <= box.north && envelope.value.north >= box.south {
          result := result + [feature];
        }
      }
    }
    assert features[..|features|] == features;
    forall f ensures f in result <==> f in features && InBox(box, f) {
      KeptOfHas(features, box, f);
    }
  }

  lemma {:induction false} KeptOfHas(items: seq<Feature>, box: Geo.Box, f: Feature)
    ensures f in KeptOf(items, box) <==> f in items && InBox(box, f)
  {
    if items != [] {
      KeptOfHas(items[..|items| - 1], box, f);
      assert items == items[..|items| - 1] + [items[|items| - 1]];
    }
  }

  lemma {:induction false} KeptOfAscends(items: seq<Feature>, box: Geo.Box)
    requires Ascending(Keys(items))
    ensures Ascending(Keys(KeptOf(items, box)))
  {
    hide InBox;
    if items != [] {
      var front, last := items[..|items| - 1], items[|items| - 1];
      var kept := KeptOf(front, box);
      KeptOfAscends(front, box);
      forall i | 0 <= i < |kept| ensures Less(SortKey(kept[i]), SortKey(last)) {
        KeptOfHas(front, box, kept[i]);
        var j :| 0 <= j < |front| && front[j] == kept[i];
        assert Less(Keys(items)[j], Keys(items)[|items| - 1]);
      }
    }
  }

  /** A chunk after both filters. */
  ghost predicate IsMatchChunk(t: Table, pk: string, start: Option<string>, q: Filter, items: seq<Feature>,
                               last: Option<string>) {
    && Ascending(Keys(items))
    && (forall f | f in items :: After(start, SortKey(f)) && UpTo(SortKey(f), last)
          && MatchesAt(t, pk, q, SortKey(f)) && t[Key(pk, SortKey(f))] == f)
    && (forall sk | MatchesAt(t, pk, q, sk) && After(start, sk) && UpTo(sk, last) :: sk in Keys(items))
    && (last.Some? ==> InPartition(t, pk, last.value) && After(start, last.value))
  }

  lemma ChunkWithBox(t: Table, pk: string, start: Option<string>, q: Filter, items: seq<Feature>, last: Option<string>)
    requires SoundTable(t) && IsChunk(t, pk, start, q, items, last) && q.bbox.Some?
    ensures IsMatchChunk(t, pk, start, q, KeptOf(items, q.bbox.value), last)
  {
    var kept := KeptOf(items, q.bbox.value);
    KeptOfAscends(items, q.bbox.value);
    forall f | f in kept
      ensures After(start, SortKey(f)) && UpTo(SortKey(f), last)
        && MatchesAt(t, pk, q, SortKey(f)) && t[Key(pk, SortKey(f))] == f
    {
      KeptOfHas(items, q.bbox.value, f);
    }
    forall sk | MatchesAt(t, pk, q, sk) && After(start, sk) && UpTo(sk, last) ensures sk in Keys(kept) {
      var f := t[Key(pk, sk)];
      assert SortKey(f) == sk;
      assert sk in Keys(items);
      var i :| 0 <= i < |items| && Keys(items)[i] == sk;
      assert items[i] in items;
      KeptOfHas(items, q.bbox.value, f);
      var j :| 0 <= j < |kept| && kept[j] == f;
      assert Keys(kept)[j] == sk;
    }
  }

  lemma ChunkWithoutBox(t: Table, pk: string, start: Option<string>, q: Filter, items: seq<Feature>,
                        last: Option<string>)
    requires IsChunk(t, pk, start, q, items, last) && q.bbox.None?
    ensures IsMatchChunk(t, pk, start, q, items, last)
  {
  }

  /** One page as the query sees it: a chunk after the bounding-box filter. */
  function MatchPage(t: Table, pk: string, start: Option<string>, q: Filter, choice: Choice): Chunk {
    var c := StoreQuery(t, pk, start, q, choice);
    Chunk(if q.bbox.Some? then KeptOf(c.items, q.bbox.value) else c.items, c.last)
  }

  lemma MatchPageIsChunk(t: Table, pk: string, start: Option<string>, q: Filter, choice: Choice)
    requires SoundTable(t)
    ensures var c := MatchPage(t, pk, start, q, choice); IsMatchChunk(t, pk, start, q, c.items, c.last)
  {
    hide IsChunk, IsMatchChunk, KeptOf;
    var c := StoreQuery(t, pk, start, q, choice);
    if q.bbox.Some? {
      ChunkWithBox(t, pk, start, q, c.items, c.last);
    } else {
      ChunkWithoutBox(t, pk, start, q, c.items, c.last);
    }
  }

  // ---- Progress of a query over a changing table ----------------------------------------------------

  /** The item exists and matches at every store read from `a` up to `b`. */
  ghost predicate Steady(world: World, a: nat, b: nat, pk: string, q: Filter, sk: string) {
    forall n | a <= n < b :: MatchesAt(world(n), pk, q, sk)
  }

  /** The feature was stored and matched at one of the reads. */
  ghost predicate Seen(world: World, a: nat, b: nat, pk: string, q: Filter, f: Feature) {
    exists n | a <= n < b :: MatchesAt(world(n), pk, q, SortKey(f)) && world(n)[Key(pk, SortKey(f))] == f
  }

  /** How far the reads have come: up to `frontier`, or to the end when `done`. */
  predicate Covered(sk: string, frontier: Option<string>, done: bool) {
    done || (frontier.Some? && UpTo(sk, frontier))
  }

  ghost predicate Progress(world: World, a: nat, now: nat, pk: string, cursor: Option<string>, q: Filter,
                           items: seq<Feature>, frontier: Option<string>, done: bool)
  {
    && Ascending(Keys(items))
    && (cursor.Some? ==> frontier.Some? && UpTo(cursor.value, frontier))
    && (forall f | f in items ::
          After(cursor, SortKey(f)) && Covered(SortKey(f), frontier, done) && Seen(world, a, now, pk, q, f))
    && (forall sk | Steady(world, a, now, pk, q, sk) && After(cursor, sk) && Covered(sk, frontier, done) ::
          sk in Keys(items))
  }

  lemma NoProgressYet(world: World, a: nat, pk: string, cursor: Option<string>, q: Filter)
    ensures Progress(world, a, a, pk, cursor, q, [], cursor, false)
  {
    if cursor.Some? {
      LessIrreflexive(cursor.value);
    }
  }

  /** The keys of two runs of items, the second beyond the first. */
  lemma KeysAppend(items: seq<Feature>, more: seq<Feature>, end: Option<string>)
    requires Ascending(Keys(items)) && Ascending(Keys(more))
    requires forall f | f in items :: end.Some? && UpTo(SortKey(f), end)
    requires forall f | f in more :: After(end, SortKey(f))
    ensures Keys(items + more) == Keys(items) + Keys(more)
    ensures Ascending(Keys(items + more))
  {
    var ks := Keys(items + more);
    assert ks == Keys(items) + Keys(more);
    forall i, j | 0 <= i < j < |ks| ensures Less(ks[i], ks[j]) {
      if j < |items| {
        assert Less(Keys(items)[i], Keys(items)[j]);
      } else if |items| <= i {
        assert Less(Keys(more)[i - |items|], Keys(more)[j - |items|]);
      } else {
        assert items[i] in items && more[j - |items|] in more;
        NotLessTransitive(ks[i], end.value, ks[j]);
      }
    }
  }

  /** Reading one more chunk. */
  lemma ProgressStep(world: World, a: nat, now: nat, pk: string, cursor: Option<string>, q: Filter,
                     items: seq<Feature>, frontier: Option<string>, more: seq<Feature>, last: Option<string>)
    requires a <= now
    requires Progress(world, a, now, pk, cursor, q, items, frontier, false)
    requires IsMatchChunk(world(now), pk, frontier, q, more, last)
    ensures Progress(world, a, now + 1, pk, cursor, q, items + more, if last.Some? then last else frontier, last.None?)
  {
    var frontier', done := if last.Some? then last else frontier, last.None?;
    KeysAppend(items, more, frontier);
    if cursor.Some? && last.Some? {
      NotLessTransitive(cursor.value, frontier.value, last.value);
      LessAsymmetric(cursor.value, last.value);
    }
    forall f | f in items + more
      ensures After(cursor, SortKey(f)) && Covered(SortKey(f), frontier', done) && Seen(world, a, now + 1, pk, q, f)
    {
      if f in more {
        NewItem(world, a, now, pk, cursor, q, frontier, more, last, f);
      } else {
        OldItem(world, a, now, pk, q, frontier, last, f);
      }
    }
    forall sk | Steady(world, a, now + 1, pk, q, sk) && After(cursor, sk) && Covered(sk, frontier', done)
      ensures sk in Keys(items + more)
    {
      assert MatchesAt(world(now), pk, q, sk);
      assert Steady(world, a, now, pk, q, sk);
      if Covered(sk, frontier, false) {
        assert sk in Keys(items);
      } else {
        if frontier.Some? {
          assert Less(frontier.value, sk);
        }
        assert sk in Keys(more);
      }
    }
  }

  lemma NewItem(world: World, a: nat, now: nat, pk: string, cursor: Option<string>, q: Filter,
                frontier: Option<string>, more: seq<Feature>, last: Option<string>, f: Feature)
    requires a <= now && f in more && IsMatchChunk(world(now), pk, frontier, q, more, last)
    requires cursor.Some? ==> frontier.Some? && UpTo(cursor.value, frontier)
    ensures After(cursor, SortKey(f)) && Covered(SortKey(f), if last.Some? then last else frontier, last.None?)
    ensures Seen(world, a, now + 1, pk, q, f)
  {
    if cursor.Some? {
      NotLessTransitive(cursor.value, frontier.value, SortKey(f));
    }
    assert MatchesAt(world(now), pk, q, SortKey(f)) && world(now)[Key(pk, SortKey(f))] == f;
  }

  lemma OldItem(world: World, a: nat, now: nat, pk: string, q: Filter,
                frontier: Option<string>, last: Option<string>, f: Feature)
    requires a <= now && Seen(world, a, now, pk, q, f) && Covered(SortKey(f), frontier, false)
    requires last.Some? ==> After(frontier, last.value)
    ensures Covered(SortKey(f), if last.Some? then last else frontier, last.None?)
    ensures Seen(world, a, now + 1, pk, q, f)
  {
    if last.Some? {
      NotLessTransitive(SortKey(f), frontier.value, last.value);
      LessAsymmetric(SortKey(f), last.value);
    }
  }
}
