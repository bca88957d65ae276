/** Walks: calls that each pass on the cursor of the one before, while other
    requests change the table between any two store reads; and walks over a table
    that stays fixed. */
module Walk {
  import opened Json
  import opened Features
  import opened SortKeys
  import opened Query
  import opened Paging

  /** Each call starts from the cursor of the one before; only the last one may
      return none. The limit may change from call to call. */
  ghost predicate IsWalk(world: World, pk: string, q: Filter, calls: seq<Call>) {
    calls == [] ||
    (IsWalk(world, pk, q, Front(calls))
     && (Front(calls) != [] ==> Final(Front(calls)).next.Some? && Final(Front(calls)).b <= Final(calls).a)
     && CallOk(world, pk, q, CursorAfter(Front(calls)), Final(calls)))
  }

  function Front(calls: seq<Call>): seq<Call>
    requires calls != []
  {
    calls[..|calls| - 1]
  }

  function Final(calls: seq<Call>): Call
    requires calls != []
  {
    calls[|calls| - 1]
  }

  /** The cursor to go on from: none at the start. */
  function CursorAfter(calls: seq<Call>): Option<string> {
    if calls == [] then None else Final(calls).next
  }

  function Collected(calls: seq<Call>): seq<Feature> {
    if calls == [] then [] else Collected(Front(calls)) + Final(calls).features
  }

  /** The walk came to its end: no cursor is left, and not because of the cap. */
  predicate Finished(calls: seq<Call>) {
    calls != [] && Final(calls).next.None? && !Final(calls).capped
  }

  function Begin(calls: seq<Call>): nat {
    if calls == [] then 0 else calls[0].a
  }

  function End(calls: seq<Call>): nat {
    if calls == [] then 0 else Final(calls).b
  }

  lemma {:induction false} WalkTimes(world: World, pk: string, q: Filter, calls: seq<Call>)
    requires IsWalk(world, pk, q, calls) && calls != []
    ensures Begin(calls) <= Final(calls).a <= End(calls)
  {
    if Front(calls) != [] {
      WalkTimes(world, pk, q, Front(calls));
    }
  }

  lemma SteadyOver(world: World, a: nat, b: nat, c: nat, d: nat, pk: string, q: Filter, sk: string)
    requires a <= c && d <= b && Steady(world, a, b, pk, q, sk)
    ensures Steady(world, c, d, pk, q, sk)
  {
  }

  lemma SeenOver(world: World, a: nat, b: nat, c: nat, d: nat, pk: string, q: Filter, f: Feature)
    requires c <= a && b <= d && Seen(world, a, b, pk, q, f)
    ensures Seen(world, c, d, pk, q, f)
  {
  }

  /** The features of a call with a cursor end at that cursor. */
  lemma PageUpToNext(world: World, pk: string, q: Filter, cursor: Option<string>, c: Call)
    requires CallOk(world, pk, q, cursor, c) && c.next.Some?
    ensures forall f | f in c.features :: UpTo(SortKey(f), c.next)
    ensures After(cursor, c.next.value)
  {
    hide Seen, Steady;
    var n := |c.features| - 1;
    assert c.features[n] in c.features;
    forall f | f in c.features ensures UpTo(SortKey(f), c.next) {
      var i :| 0 <= i < |c.features| && c.features[i] == f;
      if i < n {
        assert Less(Keys(c.features)[i], Keys(c.features)[n]);
        LessAsymmetric(SortKey(f), c.next.value);
      } else {
        LessIrreflexive(SortKey(f));
      }
    }
  }

  /** What a walk has collected so far: its keys ascend up to the cursor, each
      feature was stored and matching at one of the reads, and every feature that
      stayed stored and matching, up to the cursor or to the end, is there. */
  ghost predicate WalkOk(world: World, pk: string, q: Filter, calls: seq<Call>) {
    && Ascending(Keys(Collected(calls)))
    && (forall f | f in Collected(calls) :: Seen(world, Begin(calls), End(calls), pk, q, f))
    && (calls != [] && CursorAfter(calls).Some? ==>
          forall f | f in Collected(calls) :: UpTo(SortKey(f), CursorAfter(calls)))
    && (calls != [] ==>
          forall sk | Steady(world, Begin(calls), End(calls), pk, q, sk)
              && InPage(sk, Final(calls).next, Final(calls).capped) ::
            sk in Keys(Collected(calls)))
    && (calls == [] ==> Collected(calls) == [])
  }

  /** Every feature that stays stored and matching during the walk so far is collected. */
  lemma WalkStepComplete(world: World, pk: string, q: Filter, calls: seq<Call>, sk: string)
    requires IsWalk(world, pk, q, calls) && calls != [] && WalkOk(world, pk, q, Front(calls))
    requires Steady(world, Begin(calls), End(calls), pk, q, sk) && InPage(sk, Final(calls).next, Final(calls).capped)
    ensures sk in Keys(Collected(Front(calls))) || sk in Keys(Final(calls).features)
  {
    var before, c := Front(calls), Final(calls);
    WalkTimes(world, pk, q, calls);
    SteadyOver(world, Begin(calls), End(calls), c.a, c.b, pk, q, sk);
    if before != [] {
      WalkTimes(world, pk, q, before);
      if UpTo(sk, CursorAfter(before)) {
        SteadyOver(world, Begin(calls), End(calls), Begin(before), End(before), pk, q, sk);
      }
    }
  }

  lemma WalkStepSeen(world: World, pk: string, q: Filter, calls: seq<Call>, f: Feature)
    requires IsWalk(world, pk, q, calls) && calls != [] && WalkOk(world, pk, q, Front(calls))
    requires f in Collected(Front(calls)) || f in Final(calls).features
    ensures Seen(world, Begin(calls), End(calls), pk, q, f)
  {
    var before, c := Front(calls), Final(calls);
    WalkTimes(world, pk, q, calls);
    if f in c.features {
      SeenOver(world, c.a, c.b, Begin(calls), End(calls), pk, q, f);
    } else {
      WalkTimes(world, pk, q, before);
      SeenOver(world, Begin(before), End(before), Begin(calls), End(calls), pk, q, f);
    }
  }

  lemma KeysHave(items: seq<Feature>, more: seq<Feature>, sk: string)
    ensures sk in Keys(items + more) <==> sk in Keys(items) || sk in Keys(more)
  {
    var ks := Keys(items + more);
    assert ks == Keys(items) + Keys(more);
  }

  lemma {:induction false} EveryWalkOk(world: World, pk: string, q: Filter, calls: seq<Call>)
    requires IsWalk(world, pk, q, calls)
    ensures WalkOk(world, pk, q, calls)
  {
    if calls != [] {
      var before, c := Front(calls), Final(calls);
      EveryWalkOk(world, pk, q, before);
      var items, cursor := Collected(before), CursorAfter(before);
      KeysAppend(items, c.features, cursor);
      forall f | f in Collected(calls) ensures Seen(world, Begin(calls), End(calls), pk, q, f) {
        WalkStepSeen(world, pk, q, calls, f);
      }
      if c.next.Some? {
        PageUpToNext(world, pk, q, cursor, c);
        forall f | f in Collected(calls) ensures UpTo(SortKey(f), c.next) {
          if f in items {
            NotLessTransitive(SortKey(f), cursor.value, c.next.value);
            LessAsymmetric(SortKey(f), c.next.value);
          }
        }
      }
      forall sk | Steady(world, Begin(calls), End(calls), pk, q, sk) && InPage(sk, c.next, c.capped)
        ensures sk in Keys(Collected(calls))
      {
        WalkStepComplete(world, pk, q, calls, sk);
        KeysHave(items, c.features, sk);
      }
    }
  }

  /** Whatever other requests do between the store reads: no feature comes twice, and a
      finished walk has every feature that existed and matched all along exactly
      once. Each feature returned was stored and matching at some read. */
  lemma ConcurrentWalk(world: World, pk: string, q: Filter, calls: seq<Call>)
    requires IsWalk(world, pk, q, calls)
    ensures var found := Collected(calls);
      && (forall i, j | 0 <= i < j < |found| :: found[i].id != found[j].id)
      && (forall f | f in found :: Seen(world, Begin(calls), End(calls), pk, q, f))
      && (Finished(calls) ==> forall sk | Steady(world, Begin(calls), End(calls), pk, q, sk) ::
            exists i | 0 <= i < |found| :: SortKey(found[i]) == sk)
  {
    EveryWalkOk(world, pk, q, calls);
    var found := Collected(calls);
    forall i, j | 0 <= i < j < |found| ensures found[i].id != found[j].id {
      assert Less(Keys(found)[i], Keys(found)[j]);
      LessAsymmetric(SortKey(found[i]), SortKey(found[j]));
    }
    if Finished(calls) {
      forall sk | Steady(world, Begin(calls), End(calls), pk, q, sk)
        ensures exists i | 0 <= i < |found| :: SortKey(found[i]) == sk
      {
        assert sk in Keys(found);
        var i :| 0 <= i < |found| && Keys(found)[i] == sk;
      }
    }
  }
}
