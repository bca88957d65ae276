/** Facts about histories of commits: sequences of atomic writes run one after
    another from the empty table. */
module History {
  import opened Json
  import opened Features
  import opened Writes
  import opened Protocol

  function Front(cs: seq<Commit>): seq<Commit>
    requires cs != []
  {
    cs[..|cs| - 1]
  }

  function Final(cs: seq<Commit>): Commit
    requires cs != []
  {
    cs[|cs| - 1]
  }

  lemma Appended(cs: seq<Commit>, c: Commit)
    ensures cs + [c] != [] && Front(cs + [c]) == cs && Final(cs + [c]) == c
  {
  }

  /** The table that the commits leave, each writing its version at its key. */
  function Replay(cs: seq<Commit>): Table {
    if cs == [] then map[] else Replay(Front(cs))[CommitKey(Final(cs)) := Final(cs).after]
  }

  /** The commit is the atomic write of its request on the item then stored. */
  ghost predicate IsAtomic(t: Table, c: Commit) {
    && WellFormed(c.req)
    && AtomicWrite(Lookup(t, CommitKey(c)), c.req, c.stamp) == Ok(c.response)
    && c.after == Stored(c.response)
  }

  /** Running the requests one after another as atomic writes succeeds every
      time and gives the versions recorded. */
  ghost predicate Serial(cs: seq<Commit>) {
    cs == [] || (Serial(Front(cs)) && IsAtomic(Replay(Front(cs)), Final(cs)))
  }

  /** Every overwriting commit is stamped later than the version it overwrites. */
  ghost predicate Ordered(cs: seq<Commit>) {
    cs == [] || (Ordered(Front(cs)) && StampedLater(Replay(Front(cs)), Final(cs)))
  }

  predicate StampedLater(t: Table, c: Commit) {
    CommitKey(c) in t ==> t[CommitKey(c)].updatedAt < c.stamp.now
  }

  function Tokens(cs: seq<Commit>): set<string> {
    set i | 0 <= i < |cs| :: cs[i].after.etag
  }

  /** Every commit but a delete brings an ETag not seen before. */
  ghost predicate FreshTokens(cs: seq<Commit>) {
    cs == [] ||
    (FreshTokens(Front(cs)) && (!Final(cs).req.op.Delete? ==> Final(cs).stamp.etag !in Tokens(Front(cs))))
  }

  lemma TokensAppended(cs: seq<Commit>, c: Commit)
    ensures Tokens(cs + [c]) == Tokens(cs) + {c.after.etag}
  {
    var ds := cs + [c];
    assert ds[|cs|] == c;
    forall e | e in Tokens(cs) ensures e in Tokens(ds) {
      var i :| 0 <= i < |cs| && cs[i].after.etag == e;
      assert ds[i] == cs[i];
    }
  }

  lemma {:induction false} PrefixGood(cs: seq<Commit>, n: nat)
    requires n <= |cs| && Serial(cs)
    ensures Serial(cs[..n])
    ensures Ordered(cs) ==> Ordered(cs[..n])
    ensures FreshTokens(cs) ==> FreshTokens(cs[..n])
  {
    hide IsAtomic, StampedLater, Replay, Tokens;
    if n == |cs| {
      assert cs[..n] == cs;
    } else {
      PrefixGood(Front(cs), n);
      assert Front(cs)[..n] == cs[..n];
    }
  }

  // ---- The table ----------------------------------------------------------------------

  lemma {:induction false} TableIsSound(cs: seq<Commit>)
    requires Serial(cs)
    ensures forall k | k in Replay(cs) :: SoundItem(k, Replay(cs)[k])
  {
    if cs != [] {
      TableIsSound(Front(cs));
      var c := Final(cs);
      WriteIsSound(Lookup(Replay(Front(cs)), CommitKey(c)), c.req, c.stamp);
    }
  }

  /** Each item in the table is the version some commit left. */
  lemma {:induction false} ItemHasCommit(cs: seq<Commit>, k: Key) returns (i: nat)
    requires k in Replay(cs)
    ensures i < |cs| && CommitKey(cs[i]) == k && cs[i].after == Replay(cs)[k]
  {
    if CommitKey(Final(cs)) == k {
      i := |cs| - 1;
    } else {
      i := ItemHasCommit(Front(cs), k);
    }
  }

  /** What one commit of a serial history leaves. */
  lemma {:induction false} CommitLeaves(cs: seq<Commit>, i: nat)
    requires Serial(cs) && i < |cs|
    ensures var c := cs[i];
      && WellFormed(c.req)
      && SoundItem(CommitKey(c), c.after)
      && c.after.updatedAt == c.stamp.now
      && (c.after.deleted <==> c.req.op.Delete?)
      && (!c.req.op.Delete? ==> c.after.etag == c.stamp.etag && c.after.organization == c.req.organization
                                && c.after.collectionId == c.req.collectionId)
  {
    if i < |cs| - 1 {
      CommitLeaves(Front(cs), i);
    } else {
      var c := Final(cs);
      TableIsSound(Front(cs));
      WriteIsSound(Lookup(Replay(Front(cs)), CommitKey(c)), c.req, c.stamp);
      StoredKeeps(c.response);
      StoredIsDecoded(c.response);
    }
  }

  lemma FinalTokenIsNew(cs: seq<Commit>, i: nat)
    requires Serial(cs) && FreshTokens(cs) && i < |cs| - 1
    ensures !Final(cs).after.deleted ==> cs[i].after.etag != Final(cs).after.etag
  {
    CommitLeaves(cs, |cs| - 1);
    assert Front(cs)[i].after.etag in Tokens(Front(cs));
  }

  /** A live version is determined by its ETag. */
  lemma {:induction false} TokenDeterminesVersion(cs: seq<Commit>, i: nat, j: nat)
    requires Serial(cs) && FreshTokens(cs)
    requires i < |cs| && j < |cs| && cs[i].after.etag == cs[j].after.etag
    requires !cs[i].after.deleted && !cs[j].after.deleted
    ensures i == j
  {
    hide AtomicWrite, Stored;
    var n := |cs| - 1;
    if i < n && j < n {
      TokenDeterminesVersion(Front(cs), i, j);
    } else if i < n {
      FinalTokenIsNew(cs, i);
    } else if j < n {
      FinalTokenIsNew(cs, j);
    }
  }

  /** A live version read at any time, whose ETag is that of the live item now
      stored under the same key, is that item. */
  lemma ReadIsCurrent(cs: seq<Commit>, k: Key, i: nat)
    requires Serial(cs) && FreshTokens(cs)
    requires i < |cs| && !cs[i].after.deleted
    requires ConditionHolds(Replay(cs), k, cs[i].after.etag)
    ensures Replay(cs)[k] == cs[i].after && CommitKey(cs[i]) == k
  {
    var j := ItemHasCommit(cs, k);
    TokenDeterminesVersion(cs, i, j);
  }

  /** Later commits at a key leave later times. */
  lemma {:induction false} TableIsNewer(cs: seq<Commit>, i: nat)
    requires Serial(cs) && Ordered(cs) && i < |cs|
    ensures var k := CommitKey(cs[i]); k in Replay(cs) && cs[i].stamp.now <= Replay(cs)[k].updatedAt
  {
    CommitLeaves(cs, |cs| - 1);
    if i < |cs| - 1 {
      TableIsNewer(Front(cs), i);
    }
  }

  /** Two commits at one key bear their times in commit order. */
  lemma {:induction false} StampsAscend(cs: seq<Commit>, i: nat, j: nat)
    requires Serial(cs) && Ordered(cs) && i < j < |cs|
    requires CommitKey(cs[i]) == CommitKey(cs[j])
    ensures cs[i].stamp.now < cs[j].stamp.now
  {
    hide AtomicWrite, Stored;
    if j < |cs| - 1 {
      StampsAscend(Front(cs), i, j);
    } else {
      TableIsNewer(Front(cs), i);
    }
  }

  // ---- The life of one feature ------------------------------------------------------------

  function CommitsAt(cs: seq<Commit>, k: Key): seq<Commit> {
    if cs == [] then []
    else CommitsAt(Front(cs), k) + if CommitKey(Final(cs)) == k then [Final(cs)] else []
  }

  lemma {:induction false} CommitsAtHas(cs: seq<Commit>, k: Key, c: Commit)
    ensures c in CommitsAt(cs, k) <==> c in cs && CommitKey(c) == k
  {
    if cs != [] {
      CommitsAtHas(Front(cs), k, c);
      assert cs == Front(cs) + [Final(cs)];
    }
  }

  /** A create, then replaces and updates, then perhaps a delete; each commit
      after the first names the ETag of the one before, acts atomically on the
      version the one before left, and is stamped later. */
  ghost predicate IsLife(h: seq<Commit>) {
    && (forall n | 0 <= n < |h| :: h[n].req.op.Create? <==> n == 0)
    && (forall n | 0 <= n < |h| - 1 :: !h[n].req.op.Delete?)
    && (forall n | 0 < n < |h| :: Follows(h[n - 1], h[n]))
  }

  ghost predicate Follows(a: Commit, b: Commit) {
    && !b.req.op.Create?
    && b.req.op.ifMatch == a.after.etag
    && a.stamp.now < b.stamp.now
    && WellFormed(b.req)
    && AtomicWrite(Some(a.after), b.req, b.stamp) == Ok(b.response)
    && b.after == Stored(b.response)
  }

  lemma LifeExtends(h: seq<Commit>, c: Commit)
    requires IsLife(h)
    requires if h == [] then c.req.op.Create? else !Final(h).req.op.Delete? && Follows(Final(h), c)
    ensures IsLife(h + [c])
  {
    var g := h + [c];
    forall n | 0 < n < |g| ensures Follows(g[n - 1], g[n]) {
      if n < |h| {
        assert Follows(h[n - 1], h[n]);
      }
    }
  }

  lemma {:induction false} CommitsAreLife(cs: seq<Commit>, k: Key)
    requires Serial(cs) && Ordered(cs)
    ensures var h := CommitsAt(cs, k);
      && IsLife(h)
      && (h == [] <==> k !in Replay(cs))
      && (h != [] ==> Replay(cs)[k] == Final(h).after && Replay(cs)[k].updatedAt == Final(h).stamp.now)
      && (h != [] ==> (Final(h).req.op.Delete? <==> Final(h).after.deleted))
  {
    hide Stored, AtomicWrite, WellFormed;
    if cs != [] {
      var c := Final(cs);
      CommitsAreLife(Front(cs), k);
      CommitLeaves(cs, |cs| - 1);
      if CommitKey(c) == k {
        LifeGrows(Front(cs), c);
        LifeExtends(CommitsAt(Front(cs), k), c);
      }
    }
  }

  /** What the next commit at a key meets there. */
  lemma LifeGrows(cs: seq<Commit>, c: Commit)
    requires IsAtomic(Replay(cs), c) && StampedLater(Replay(cs), c)
    requires var k := CommitKey(c); var h := CommitsAt(cs, k);
      && (h == [] <==> k !in Replay(cs))
      && (h != [] ==> Replay(cs)[k] == Final(h).after && Replay(cs)[k].updatedAt == Final(h).stamp.now)
      && (h != [] ==> (Final(h).req.op.Delete? <==> Final(h).after.deleted))
    ensures var h := CommitsAt(cs, CommitKey(c));
      if h == [] then c.req.op.Create? else !Final(h).req.op.Delete? && Follows(Final(h), c)
  {
    var k := CommitKey(c);
    var h := CommitsAt(cs, k);
    if h != [] {
      assert Lookup(Replay(cs), k) == Some(Final(h).after);
    }
  }

  // ---- ETags --------------------------------------------------------------------------------

  /** The final commit takes the ETag it names off the one live item that had it. */
  lemma FinalTokenSpent(cs: seq<Commit>, k: Key)
    requires cs != [] && Serial(cs) && FreshTokens(cs) && !Final(cs).req.op.Create?
    ensures !ConditionHolds(Replay(cs), k, Final(cs).req.op.ifMatch)
  {
    var front, c := Front(cs), Final(cs);
    CommitLeaves(cs, |cs| - 1);
    var j := ItemHasCommit(front, CommitKey(c));
    assert front[j].after.etag in Tokens(front);
    if k != CommitKey(c) && ConditionHolds(Replay(front), k, c.req.op.ifMatch) {
      ReadIsCurrent(front, k, j);
    }
  }

  lemma NewTokenIsOther(cs: seq<Commit>, token: string)
    requires cs != [] && Serial(cs) && FreshTokens(cs) && token in Tokens(Front(cs))
    ensures !ConditionHolds(Replay(cs), CommitKey(Final(cs)), token)
  {
    CommitLeaves(cs, |cs| - 1);
  }

  /** An ETag that was once given up matches no live item any more. */
  lemma {:induction false} TokenSpent(cs: seq<Commit>, i: nat, k: Key)
    requires Serial(cs) && FreshTokens(cs)
    requires i < |cs| && !cs[i].req.op.Create?
    ensures !ConditionHolds(Replay(cs), k, cs[i].req.op.ifMatch)
    decreases |cs|
  {
    if i == |cs| - 1 {
      FinalTokenSpent(cs, k);
    } else {
      TokenSpent(Front(cs), i, k);
      if k == CommitKey(Final(cs)) {
        GivenUpIsOld(Front(cs), i);
        NewTokenIsOther(cs, cs[i].req.op.ifMatch);
      }
    }
  }

  lemma {:induction false} GivenUpIsOld(cs: seq<Commit>, i: nat)
    requires Serial(cs)
    requires i < |cs| && !cs[i].req.op.Create?
    ensures cs[i].req.op.ifMatch in Tokens(cs)
    decreases |cs|
  {
    hide Stored;
    var front, c := Front(cs), Final(cs);
    assert cs == front + [c];
    TokensAppended(front, c);
    if i < |front| {
      GivenUpIsOld(front, i);
    } else {
      var j := ItemHasCommit(front, CommitKey(c));
      assert front[j].after.etag in Tokens(front);
    }
  }

  /** At most one replace, update or delete ever succeeds with a given ETag. */
  lemma {:induction false} TokenUsedOnce(cs: seq<Commit>, i: nat, j: nat)
    requires Serial(cs) && FreshTokens(cs)
    requires i < j < |cs| && !cs[i].req.op.Create? && !cs[j].req.op.Create?
    ensures cs[i].req.op.ifMatch != cs[j].req.op.ifMatch
    decreases |cs|
  {
    if j < |cs| - 1 {
      TokenUsedOnce(Front(cs), i, j);
    } else {
      TokenSpent(Front(cs), i, CommitKey(cs[j]));
    }
  }

  /** Along the life of a feature no ETag comes back; a delete alone keeps the
      one before it. */
  lemma {:induction false} ChainHasNoRepeats(cs: seq<Commit>, k: Key)
    requires Serial(cs) && FreshTokens(cs)
    ensures var h := CommitsAt(cs, k);
      forall m, n | 0 <= m < n < |h| && !h[n].req.op.Delete? :: h[m].after.etag != h[n].after.etag
  {
    hide AtomicWrite, Stored, WellFormed;
    if cs != [] {
      ChainHasNoRepeats(Front(cs), k);
      CommitLeaves(cs, |cs| - 1);
      var before := CommitsAt(Front(cs), k);
      forall m | 0 <= m < |before| ensures before[m].after.etag in Tokens(Front(cs)) {
        CommitsAtHas(Front(cs), k, before[m]);
      }
    }
  }
}
