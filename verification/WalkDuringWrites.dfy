/** Paging through a collection while the write protocol runs: the store reads of a
    walk fall between the steps of a run. */
module WalkDuringWrites {
  import opened Features
  import opened Writes
  import opened Query
  import opened Paging
  import opened Walk
  import P = Protocol
  import T = ProtocolTheorems

  /** `at(n)` is the state of the run that the n-th store read finds. A read may find
      an earlier state than the one before it did; all are from `first` to `last`. */
  ghost predicate ReadTimes(run: seq<P.State>, at: nat -> nat, first: nat, last: nat) {
    last < |run| && forall n :: first <= at(n) <= last
  }

  function TableAt(run: seq<P.State>, at: nat -> nat, n: nat): Table {
    if at(n) < |run| then run[at(n)].table else map[]
  }

  function RunWorld(run: seq<P.State>, at: nat -> nat): World {
    (n: nat) => TableAt(run, at, n)
  }

  /** Every state of a run is one that queries are made for. */
  lemma RunWorldIsSound(cfg: P.Config, run: seq<P.State>, at: nat -> nat, first: nat, last: nat)
    requires P.IsRun(cfg, run) && ReadTimes(run, at, first, last)
    ensures SoundWorld(RunWorld(run, at))
  {
    hide SoundItem;
    var world := RunWorld(run, at);
    forall n ensures SoundTable(world(n)) {
      T.ItemsAreSound(cfg, run, at(n));
    }
  }

  /** The feature is stored and matches in the given state. */
  ghost predicate MatchesIn(s: P.State, pk: string, q: Filter, f: Feature) {
    MatchesAt(s.table, pk, q, SortKey(f)) && s.table[Key(pk, SortKey(f))] == f
  }

  /** The feature under `sk` is stored and matches in all the states from `first` to `last`. */
  ghost predicate Throughout(run: seq<P.State>, first: nat, last: nat, pk: string, q: Filter, sk: string)
    requires last < |run|
  {
    forall m | first <= m <= last :: MatchesAt(run[m].table, pk, q, sk)
  }

  /** While creates, replaces, patches and deletes of other callers are carried out
      step by step, between any two store reads: the walk returns no feature twice,
      each one as some state its reads could find had it, and a finished walk returns
      exactly once every feature that was stored and matched in all of those states. */
  lemma WalkMeetsWrites(cfg: P.Config, run: seq<P.State>, at: nat -> nat, first: nat, last: nat,
                        pk: string, q: Filter, calls: seq<Call>)
    requires P.IsRun(cfg, run) && ReadTimes(run, at, first, last)
    requires calls != [] && IsWalk(RunWorld(run, at), pk, q, calls)
    ensures var found := Collected(calls);
      && (forall i, j | 0 <= i < j < |found| :: found[i].id != found[j].id)
      && (forall f | f in found :: exists m | first <= m <= last :: MatchesIn(run[m], pk, q, f))
      && (Finished(calls) ==>
            forall sk | Throughout(run, first, last, pk, q, sk) ::
              exists i | 0 <= i < |found| :: SortKey(found[i]) == sk)
  {
    hide Matches, IsWalk, Collected, P.IsRun;
    var world := RunWorld(run, at);
    var found := Collected(calls);
    ConcurrentWalk(world, pk, q, calls);
    forall f | f in found ensures exists m | first <= m <= last :: MatchesIn(run[m], pk, q, f) {
      assert Seen(world, Begin(calls), End(calls), pk, q, f);
      var n :| Begin(calls) <= n < End(calls)
               && MatchesAt(world(n), pk, q, SortKey(f)) && world(n)[Key(pk, SortKey(f))] == f;
      assert MatchesIn(run[at(n)], pk, q, f);
    }
    forall sk | Finished(calls) && Throughout(run, first, last, pk, q, sk)
      ensures exists i | 0 <= i < |found| :: SortKey(found[i]) == sk
    {
      assert Steady(world, Begin(calls), End(calls), pk, q, sk);
    }
  }

  lemma SeparableEarlier(cfg: P.Config, run: seq<P.State>, m: nat, n: nat)
    requires P.IsRun(cfg, run) && m <= n < |run| && T.OrganizationsSeparable(run[n])
    ensures T.OrganizationsSeparable(run[m])
  {
    T.RequestsStayInRun(cfg, run, m, n);
  }

  /** Nor does a walk ever leave the organization and collection it asked for. */
  lemma WalkStaysInTenant(cfg: P.Config, run: seq<P.State>, at: nat -> nat, first: nat, last: nat,
                          organization: string, collectionId: string, q: Filter, calls: seq<Call>, f: Feature)
    requires P.IsRun(cfg, run) && ReadTimes(run, at, first, last)
    requires calls != [] && IsWalk(RunWorld(run, at), MakePk(organization, collectionId), q, calls)
    requires Separable(organization) && T.OrganizationsSeparable(run[last])
    requires f in Collected(calls)
    ensures f.organization == organization && f.collectionId == collectionId
  {
    hide IsWalk, Collected, P.IsRun, Matches, Separable;
    var pk := MakePk(organization, collectionId);
    WalkMeetsWrites(cfg, run, at, first, last, pk, q, calls);
    var m :| first <= m <= last && MatchesIn(run[m], pk, q, f);
    SeparableEarlier(cfg, run, m, last);
    T.PartitionIsTenant(cfg, run, m, organization, collectionId, Key(pk, SortKey(f)));
  }
}
