/** What holds of every run of the write protocol. */
module ProtocolTheorems {
  import opened Json
  import opened Features
  import opened Auth
  import opened Writes
  import opened Protocol
  import opened History
  import opened ProtocolInvariant

  // ---- Refinement of the atomic machine --------------------------------------------------------

  /** The table changed by one atomic write on the item then stored, or not at all. */
  ghost predicate RefinesAtomic(s: State, s': State) {
    || (s'.commits == s.commits && s'.table == s.table)
    || (s'.changes == s.changes && exists c :: AtomicStep(s, s', c))
  }

  ghost predicate AtomicStep(s: State, s': State, c: Commit) {
    && s'.commits == s.commits + [c]
    && IsAtomic(s.table, c)
    && s'.table == s.table[CommitKey(c) := c.after]
  }

  lemma NextRefines(cfg: Config, s: State, s': State, step: Step)
    requires Inv(s) && NextBy(cfg, s, s', step)
    ensures RefinesAtomic(s, s')
  {
    hide AtomicWrite, Stored, Inv, WellFormed, Checks, CheckedRead, Build;
    if step.WriteStep? && s'.commits != s.commits {
      WriteIsAtomic(s, s', step.rid);
      assert AtomicStep(s, s', Final(s'.commits));
    } else if step.WriteStep? {
      WriteFails(s, s', step.rid);
    }
  }

  /** Every step of every run refines the atomic machine: it is one atomic write
      on the item then stored, or it leaves the features table alone. */
  lemma StepRefinesAtomic(cfg: Config, run: seq<State>, n: nat)
    requires IsRun(cfg, run) && n + 1 < |run|
    ensures RefinesAtomic(run[n], run[n + 1])
  {
    RunKeeps(cfg, run, n);
    assert Steps(cfg, run, n);
    var step :| NextBy(cfg, run[n], run[n + 1], step);
    NextRefines(cfg, run[n], run[n + 1], step);
  }

  /** Requests are never forgotten or altered. */
  ghost predicate RequestsStay(s: State, s': State) {
    forall rid | rid in s.procs :: rid in s'.procs && s'.procs[rid].req == s.procs[rid].req
  }

  lemma NextKeepsRequests(cfg: Config, s: State, s': State, step: Step)
    requires NextBy(cfg, s, s', step)
    ensures RequestsStay(s, s')
  {
    hide Stored, Build, DeleteRecord, RecordOf, WellFormed, Checks, CheckedRead;
    hide MayRead, ConditionHolds, TargetKey, ItemKey, ChangeKeyOf, Lookup;
  }

  lemma {:induction false} RequestsStayInRun(cfg: Config, run: seq<State>, m: nat, n: nat)
    requires IsRun(cfg, run) && m <= n < |run|
    ensures RequestsStay(run[m], run[n])
  {
    if m < n {
      RequestsStayInRun(cfg, run, m, n - 1);
      assert Steps(cfg, run, n - 1);
      var step :| NextBy(cfg, run[n - 1], run[n], step);
      NextKeepsRequests(cfg, run[n - 1], run[n], step);
    }
  }

  /** The response is the one the atomic write gives at the request's place in the
      commit order. */
  lemma {:induction false} CommitAnswers(cs: seq<Commit>, i: nat)
    requires Serial(cs) && i < |cs|
    ensures WellFormed(cs[i].req)
    ensures AtomicWrite(Lookup(Replay(cs[..i]), CommitKey(cs[i])), cs[i].req, cs[i].stamp) == Ok(cs[i].response)
  {
    if i < |cs| - 1 {
      CommitAnswers(Front(cs), i);
      assert Front(cs)[..i] == cs[..i];
    }
  }

  /** In every state of every run, running the committed requests one after another
      as atomic writes gives the table and every answer sent. */
  lemma RunIsSerializable(cfg: Config, run: seq<State>, n: nat)
    requires IsRun(cfg, run) && n < |run|
    ensures Serial(run[n].commits) && run[n].table == Replay(run[n].commits)
    ensures forall rid | rid in run[n].procs && run[n].procs[rid].pc.Done? ::
      Committed(run[n].commits, rid, run[n].procs[rid].req, run[n].procs[rid].pc.response)
  {
    RunKeeps(cfg, run, n);
    forall rid | rid in run[n].procs && run[n].procs[rid].pc.Done?
      ensures Committed(run[n].commits, rid, run[n].procs[rid].req, run[n].procs[rid].pc.response)
    {
      assert ProcOk(run[n], rid, run[n].procs[rid].req, run[n].procs[rid].pc);
    }
  }

  lemma {:induction false} CommitsGrow(cfg: Config, run: seq<State>, m: nat, n: nat)
    requires IsRun(cfg, run) && m <= n < |run|
    ensures run[m].commits <= run[n].commits
  {
    if m < n {
      CommitsGrow(cfg, run, m, n - 1);
      StepRefinesAtomic(cfg, run, n - 1);
    }
  }

  lemma OwnerExists(s: State, i: nat)
    requires Inv(s) && i < |s.commits|
    ensures s.commits[i].rid in s.procs && s.procs[s.commits[i].rid].req == s.commits[i].req
  {
    assert OwnerOk(s, s.commits[i]);
  }

  /** The commit order respects real time: a request that had committed before
      another one began comes first. */
  lemma CommitOrderIsRealTime(cfg: Config, run: seq<State>, m: nat, n: nat, i: nat, j: nat)
    requires IsRun(cfg, run) && m <= n < |run|
    requires i < |run[m].commits|
    requires j < |run[n].commits| && run[n].commits[j].rid !in run[m].procs
    ensures i < j && run[n].commits[i] == run[m].commits[i]
  {
    CommitsGrow(cfg, run, m, n);
    RunKeeps(cfg, run, m);
    if j < |run[m].commits| {
      OwnerExists(run[m], j);
    }
  }

  /** A request has a commit exactly when it is past its conditional write; one
      that failed, or stopped before that write, has none. */
  lemma CommittedIffPastWrite(cfg: Config, run: seq<State>, n: nat, rid: nat)
    requires IsRun(cfg, run) && n < |run| && rid in run[n].procs
    ensures var s := run[n];
      (exists i | 0 <= i < |s.commits| :: s.commits[i].rid == rid)
        <==> LogPending(s.procs[rid].pc) || s.procs[rid].pc.Done?
  {
    RunKeeps(cfg, run, n);
    var s := run[n];
    assert ProcOk(s, rid, s.procs[rid].req, s.procs[rid].pc);
    if i :| 0 <= i < |s.commits| && s.commits[i].rid == rid {
      assert OwnerOk(s, s.commits[i]);
    }
  }

  /** A failed request has left nothing: no version in the table, no record in the log. */
  lemma FailedLeavesNothing(cfg: Config, run: seq<State>, n: nat, rid: nat)
    requires IsRun(cfg, run) && n < |run|
    requires rid in run[n].procs && run[n].procs[rid].pc.Failed?
    ensures var s := run[n];
      && (forall i | 0 <= i < |s.commits| :: s.commits[i].rid != rid)
      && (forall ck | ck in s.changes ::
            exists i | 0 <= i < |s.commits| :: s.commits[i].rid != rid && CommitRecord(s.commits[i]) == s.changes[ck])
  {
    var s := run[n];
    RunKeeps(cfg, run, n);
    CommittedIffPastWrite(cfg, run, n, rid);
    forall ck | ck in s.changes
      ensures exists i | 0 <= i < |s.commits| :: s.commits[i].rid != rid && CommitRecord(s.commits[i]) == s.changes[ck]
    {
      assert RecordHasCommit(s, ck);
      var i :| 0 <= i < |s.commits| && RecordsCommit(s, ck, s.commits[i]);
    }
  }

  // ---- The change log ------------------------------------------------------------------------------

  /** A commit is on record exactly when its request is done: missing are only those
      of requests running or stopped between their two writes. */
  lemma LoggedIffDone(cfg: Config, run: seq<State>, n: nat, i: nat)
    requires IsRun(cfg, run) && n < |run| && i < |run[n].commits|
    ensures var s := run[n]; var rid := s.commits[i].rid;
      && rid in s.procs
      && (Logged(s, s.commits[i]) <==> s.procs[rid].pc.Done?)
      && (!Logged(s, s.commits[i]) <==> LogPending(s.procs[rid].pc))
  {
    RunKeeps(cfg, run, n);
    LoggedIffDoneIn(run[n], i);
  }

  /** What a finished write has left in the log: one record, under its partition, time
      and id, with the GeoJSON of the item it left. */
  lemma DoneIsOnRecord(cfg: Config, run: seq<State>, n: nat, i: nat)
    requires IsRun(cfg, run) && n < |run| && i < |run[n].commits|
    requires run[n].commits[i].rid in run[n].procs && run[n].procs[run[n].commits[i].rid].pc.Done?
    ensures var changes, c := run[n].changes, run[n].commits[i];
      var id := if c.req.op.Create? then c.stamp.newId else c.req.op.id;
      var ck := ChangeKey(c.req.organization + "#COLLECTION#" + c.req.collectionId, c.stamp.now, id);
      && ck in changes
      && changes[ck].collectionId == c.req.collectionId && changes[ck].organization == c.req.organization
      && changes[ck].featureId == id && changes[ck].timestamp == c.stamp.now
      && changes[ck].operation == (if c.req.op.Create? then "CREATE" else if c.req.op.Replace? then "REPLACE"
                                   else if c.req.op.Update? then "UPDATE" else "DELETE")
      && changes[ck].snapshot == Dict(map[
           "type" := Str("Feature"), "id" := Str(c.after.id), "geometry" := c.after.geometry,
           "properties" := Dict(c.after.properties["organization" := Str(c.after.organization)]
                                                  ["visibility" := Str(c.after.visibility)])])
  {
    hide Inv, Stored, Decoded, IsRun;
    LoggedIffDone(cfg, run, n, i);
    var c := run[n].commits[i];
    TargetsAndRecords(c.req, c.stamp, c.response);
    GeoJsonIs(c.after);
  }

  lemma LoggedIffDoneIn(s: State, i: nat)
    requires Inv(s) && i < |s.commits|
    ensures var rid := s.commits[i].rid;
      && rid in s.procs
      && (Logged(s, s.commits[i]) <==> s.procs[rid].pc.Done?)
      && (!Logged(s, s.commits[i]) <==> LogPending(s.procs[rid].pc))
  {
    var c := s.commits[i];
    assert OwnerOk(s, c) && OnRecord(s, c);
    if Logged(s, c) {
      LoggedIsDone(s, i);
    }
  }

  lemma LoggedIsDone(s: State, i: nat)
    requires HistoryOk(s) && LogOk(s) && i < |s.commits| && Logged(s, s.commits[i])
    ensures s.commits[i].rid in s.procs && s.procs[s.commits[i].rid].pc.Done?
  {
    hide Serial, Ordered, FreshTokens, Replay;
    var ck := ChangeKeyOf(CommitRecord(s.commits[i]));
    assert RecordHasCommit(s, ck);
    var j :| 0 <= j < |s.commits| && RecordsCommit(s, ck, s.commits[j]);
    if i < j {
      ChangeKeysApart(s, i, j);
    } else if j < i {
      ChangeKeysApart(s, j, i);
    }
  }

  /** The record is one of the feature stored under `k`. */
  predicate FiledUnder(ck: ChangeKey, k: Key) {
    ck.pk == k.pk && MakeSk(ck.featureId) == k.sk
  }

  /** The records present among those owed by the given commits, in their order. */
  ghost function Present(s: State, h: seq<Commit>): seq<ChangeRecord> {
    if h == [] then []
    else Present(s, Front(h)) + if Logged(s, Final(h)) then [CommitRecord(Final(h))] else []
  }

  ghost predicate AscendingInTime(rs: seq<ChangeRecord>) {
    forall i, j | 0 <= i < j < |rs| :: rs[i].timestamp < rs[j].timestamp
  }

  /** `rs` is what a query for the records of `k` lists in sort-key order. */
  ghost predicate IsListing(s: State, k: Key, rs: seq<ChangeRecord>) {
    && AscendingInTime(rs)
    && forall r :: r in rs <==> exists ck :: ck in s.changes && FiledUnder(ck, k) && s.changes[ck] == r
  }

  lemma {:induction false} PresentHas(s: State, h: seq<Commit>, r: ChangeRecord)
    ensures r in Present(s, h) <==> exists c :: c in h && Logged(s, c) && CommitRecord(c) == r
  {
    if h != [] {
      PresentHas(s, Front(h), r);
      assert h == Front(h) + [Final(h)];
    }
  }

  lemma {:induction false} PresentAscends(s: State, h: seq<Commit>)
    requires forall m, n | 0 <= m < n < |h| :: h[m].stamp.now < h[n].stamp.now
    ensures AscendingInTime(Present(s, h))
  {
    if h != [] {
      PresentAscends(s, Front(h));
      forall r | r in Present(s, Front(h)) ensures r.timestamp < Final(h).stamp.now {
        PresentHas(s, Front(h), r);
      }
    }
  }

  lemma {:induction false} LifeAscends(h: seq<Commit>, m: nat, n: nat)
    requires IsLife(h) && m < n < |h|
    ensures h[m].stamp.now < h[n].stamp.now
    decreases n
  {
    assert Follows(h[n - 1], h[n]);
    if m < n - 1 {
      LifeAscends(h, m, n - 1);
    }
  }

  lemma ListingMember(s: State, k: Key, r: ChangeRecord)
    requires Inv(s)
    ensures r in Present(s, CommitsAt(s.commits, k)) <==>
      exists ck :: ck in s.changes && FiledUnder(ck, k) && s.changes[ck] == r
  {
    hide HistoryOk, ProcsOk, OwnersOk, TokensApart, Present, CommitsAt;
    PresentHas(s, CommitsAt(s.commits, k), r);
    if c :| c in CommitsAt(s.commits, k) && Logged(s, c) && CommitRecord(c) == r {
      CommitsAtHas(s.commits, k, c);
      assert FiledUnder(ChangeKeyOf(CommitRecord(c)), k);
    }
    if ck :| ck in s.changes && FiledUnder(ck, k) && s.changes[ck] == r {
      assert RecordHasCommit(s, ck);
      var i :| 0 <= i < |s.commits| && RecordsCommit(s, ck, s.commits[i]);
      CommitsAtHas(s.commits, k, s.commits[i]);
    }
  }

  /** One feature's records in sort-key order are those of its commits in commit
      order, less the missing ones. */
  lemma ListingIsCommitOrder(cfg: Config, run: seq<State>, n: nat, k: Key)
    requires IsRun(cfg, run) && n < |run|
    ensures var s := run[n]; IsListing(s, k, Present(s, CommitsAt(s.commits, k))) && IsLife(CommitsAt(s.commits, k))
  {
    hide ProcsOk, OwnersOk, LogOk, TokensApart, Present, CommitsAt, Serial, FreshTokens, Ordered;
    RunKeeps(cfg, run, n);
    var s := run[n];
    var h := CommitsAt(s.commits, k);
    CommitsAreLife(s.commits, k);
    forall a, b | 0 <= a < b < |h| ensures h[a].stamp.now < h[b].stamp.now {
      LifeAscends(h, a, b);
    }
    PresentAscends(s, h);
    forall r ensures r in Present(s, h) <==> exists ck :: ck in s.changes && FiledUnder(ck, k) && s.changes[ck] == r {
      ListingMember(s, k, r);
    }
  }

  /** There is only one such listing. */
  lemma {:induction false} ListingUnique(a: seq<ChangeRecord>, b: seq<ChangeRecord>)
    requires AscendingInTime(a) && AscendingInTime(b)
    requires forall r :: r in a <==> r in b
    ensures a == b
  {
    if a != [] && b != [] {
      var x, y := a[|a| - 1], b[|b| - 1];
      assert x in b && y in a;
      assert x == y;
      var c, d := a[..|a| - 1], b[..|b| - 1];
      forall r ensures r in c <==> r in d {
        LastOnce(a, r);
        LastOnce(b, r);
      }
      ListingUnique(c, d);
      assert a == c + [x] && b == d + [y];
    } else if a != [] {
      HasRecord(a);
    } else if b != [] {
      HasRecord(b);
    }
  }

  lemma HasRecord(a: seq<ChangeRecord>)
    requires a != []
    ensures exists r :: r in a
  {
    assert a[0] in a;
  }

  lemma LastOnce(a: seq<ChangeRecord>, r: ChangeRecord)
    requires AscendingInTime(a) && a != []
    ensures r in a[..|a| - 1] <==> r in a && r != a[|a| - 1]
  {
    assert a == a[..|a| - 1] + [a[|a| - 1]];
  }

  /** CREATE (REPLACE|UPDATE)* DELETE? */
  predicate IsLifeOfOperations(ops: seq<string>) {
    && (forall n | 0 <= n < |ops| :: ops[n] in {"CREATE", "REPLACE", "UPDATE", "DELETE"})
    && (forall n | 0 <= n < |ops| :: ops[n] == "CREATE" <==> n == 0)
    && (forall n | 0 <= n < |ops| - 1 :: ops[n] != "DELETE")
  }

  lemma {:induction false} NoneMissing(s: State, h: seq<Commit>)
    requires forall c | c in h :: Logged(s, c)
    ensures |Present(s, h)| == |h| && forall n | 0 <= n < |h| :: Present(s, h)[n] == CommitRecord(h[n])
  {
    if h != [] {
      assert Final(h) in h;
      NoneMissing(s, Front(h));
    }
  }

  /** When none of a stored feature's records is missing, the listing tells its
      whole life and ends in the GeoJSON of the stored item. */
  lemma CompleteLogTellsLife(cfg: Config, run: seq<State>, n: nat, k: Key, rs: seq<ChangeRecord>)
    requires IsRun(cfg, run) && n < |run| && k in run[n].table
    requires IsListing(run[n], k, rs)
    requires forall c | c in CommitsAt(run[n].commits, k) :: Logged(run[n], c)
    ensures rs != []
    ensures IsLifeOfOperations(seq(|rs|, i requires 0 <= i < |rs| => rs[i].operation))
    ensures rs[|rs| - 1].snapshot == ToGeoJson(run[n].table[k])
    ensures rs[|rs| - 1].operation == "DELETE" <==> run[n].table[k].deleted
  {
    hide Stored, AtomicWrite, WellFormed, Serial, Ordered, ProcsOk, OwnersOk, LogOk, TokensApart;
    RunKeeps(cfg, run, n);
    var s := run[n];
    var h := CommitsAt(s.commits, k);
    ListingIsCommitOrder(cfg, run, n, k);
    ListingUnique(rs, Present(s, h));
    CommitsAreLife(s.commits, k);
    NoneMissing(s, h);
    LifeOperations(h, rs);
    LastVersion(s, k);
  }

  lemma LifeOperations(h: seq<Commit>, rs: seq<ChangeRecord>)
    requires IsLife(h) && |rs| == |h| && forall n | 0 <= n < |h| :: rs[n] == CommitRecord(h[n])
    ensures IsLifeOfOperations(seq(|rs|, i requires 0 <= i < |rs| => rs[i].operation))
  {
  }

  lemma LastVersion(s: State, k: Key)
    requires Inv(s) && k in s.table
    ensures var h := CommitsAt(s.commits, k);
      h != [] && Final(h).after == s.table[k] && (s.table[k].deleted <==> Final(h).req.op.Delete?)
  {
    CommitsAreLife(s.commits, k);
  }

  // ---- ETags -----------------------------------------------------------------------------------------

  /** With one ETag at most one replace, update or delete ever succeeds, over all features. */
  lemma OneWinnerPerToken(cfg: Config, run: seq<State>, n: nat, i: nat, j: nat)
    requires IsRun(cfg, run) && n < |run|
    requires i < |run[n].commits| && j < |run[n].commits|
    requires !run[n].commits[i].req.op.Create? && !run[n].commits[j].req.op.Create?
    requires run[n].commits[i].req.op.ifMatch == run[n].commits[j].req.op.ifMatch
    ensures i == j
  {
    RunKeeps(cfg, run, n);
    if i < j {
      TokenUsedOnce(run[n].commits, i, j);
    } else if j < i {
      TokenUsedOnce(run[n].commits, j, i);
    }
  }

  /** The ETags of a feature form a chain without repeats, each commit giving up the
      ETag of the one before; only a delete brings none of its own. */
  lemma TokensFormChain(cfg: Config, run: seq<State>, n: nat, k: Key)
    requires IsRun(cfg, run) && n < |run|
    ensures var h := CommitsAt(run[n].commits, k);
      && (forall m | 0 < m < |h| :: !h[m].req.op.Create? && h[m].req.op.ifMatch == h[m - 1].after.etag)
      && (forall l, m | 0 <= l < m < |h| && !h[m].req.op.Delete? :: h[l].after.etag != h[m].after.etag)
      && (forall m | 0 < m < |h| && h[m].req.op.Delete? :: h[m].after.etag == h[m - 1].after.etag && m == |h| - 1)
  {
    hide AtomicWrite, Stored, WellFormed, OwnersOk, LogOk, ProcsOk, TokensApart, Serial, FreshTokens, Ordered;
    RunKeeps(cfg, run, n);
    var cs := run[n].commits;
    var h := CommitsAt(cs, k);
    CommitsAreLife(cs, k);
    ChainHasNoRepeats(cs, k);
    forall m | 0 < m < |h| && h[m].req.op.Delete? ensures h[m].after.etag == h[m - 1].after.etag {
      assert Follows(h[m - 1], h[m]);
      CommitsAtHas(cs, k, h[m - 1]);
      var i :| 0 <= i < |cs| && cs[i] == h[m - 1];
      CommitLeaves(cs, i);
      DeleteKeepsToken(h[m - 1], h[m]);
    }
  }

  lemma DeleteKeepsToken(a: Commit, b: Commit)
    requires Follows(a, b) && b.req.op.Delete? && SoundItem(CommitKey(a), a.after)
    ensures b.after.etag == a.after.etag
  {
    StoredDeletion(a.after, b.stamp.now);
  }

  /** Once an item is marked deleted, no later write ever changes it. */
  lemma {:induction false} DeletedStaysDeleted(cfg: Config, run: seq<State>, m: nat, n: nat, k: Key)
    requires IsRun(cfg, run) && m <= n < |run|
    requires k in run[m].table && run[m].table[k].deleted
    ensures k in run[n].table && run[n].table[k] == run[m].table[k]
  {
    if m < n {
      DeletedStaysDeleted(cfg, run, m, n - 1, k);
      StepRefinesAtomic(cfg, run, n - 1);
      StepKeepsDeleted(run[n - 1], run[n], k);
    }
  }

  lemma StepKeepsDeleted(s: State, s': State, k: Key)
    requires RefinesAtomic(s, s') && k in s.table && s.table[k].deleted
    ensures k in s'.table && s'.table[k] == s.table[k]
  {
  }

  // ---- Identity and tenancy ---------------------------------------------------------------------------

  ghost predicate OrganizationsSeparable(s: State) {
    forall rid | rid in s.procs :: Separable(s.procs[rid].req.organization)
  }

  lemma {:induction false} ItemOrganizationSeparable(cs: seq<Commit>, k: Key)
    requires Serial(cs) && k in Replay(cs)
    requires forall i | 0 <= i < |cs| :: Separable(cs[i].req.organization)
    ensures Separable(Replay(cs)[k].organization)
  {
    var c := Final(cs);
    if CommitKey(c) == k {
      CommitLeaves(cs, |cs| - 1);
      if c.req.op.Delete? {
        ItemOrganizationSeparable(Front(cs), k);
      }
    } else {
      ItemOrganizationSeparable(Front(cs), k);
    }
  }

  /** In every state each item is filed under the key its own fields make, and its
      properties hold neither organization nor visibility. */
  lemma ItemsAreSound(cfg: Config, run: seq<State>, n: nat)
    requires IsRun(cfg, run) && n < |run|
    ensures forall k | k in run[n].table :: SoundItem(k, run[n].table[k])
  {
    RunKeeps(cfg, run, n);
    TableIsSound(run[n].commits);
  }

  lemma SeparableVersion(f: Feature, k: Key, organization: string, collectionId: string)
    requires SoundItem(k, f) && Separable(f.organization) && Separable(organization)
    requires k.pk == MakePk(organization, collectionId)
    ensures f.organization == organization && f.collectionId == collectionId
  {
    PkInjective(f.organization, f.collectionId, organization, collectionId);
  }

  /** With separable organization names a partition holds only features of its own
      organization and collection, so no listing mixes tenants. */
  lemma PartitionIsTenant(cfg: Config, run: seq<State>, n: nat, organization: string, collectionId: string, k: Key)
    requires IsRun(cfg, run) && n < |run|
    requires OrganizationsSeparable(run[n]) && Separable(organization)
    requires k in run[n].table && k.pk == MakePk(organization, collectionId)
    ensures run[n].table[k].organization == organization && run[n].table[k].collectionId == collectionId
  {
    var s := run[n];
    RunKeeps(cfg, run, n);
    ItemsAreSound(cfg, run, n);
    forall i | 0 <= i < |s.commits| ensures Separable(s.commits[i].req.organization) {
      OwnerExists(s, i);
    }
    ItemOrganizationSeparable(s.commits, k);
    SeparableVersion(s.table[k], k, organization, collectionId);
  }

  /** A read of one feature, however stale, returns the requested feature of the
      requested tenant. */
  lemma ReadIsTenant(cfg: Config, run: seq<State>, n: nat, organization: string, collectionId: string, id: string,
                     item: Option<Feature>)
    requires IsRun(cfg, run) && n < |run|
    requires OrganizationsSeparable(run[n]) && Separable(organization)
    requires MayRead(cfg, run[n], MakeKey(organization, collectionId, id), item) && item.Some?
    ensures item.value.organization == organization && item.value.collectionId == collectionId && item.value.id == id
  {
    hide Stored, AtomicWrite, WellFormed, ProcsOk, OwnersOk, LogOk, TokensApart;
    var s, k := run[n], MakeKey(organization, collectionId, id);
    RunKeeps(cfg, run, n);
    ReadHasCommit(cfg, s, k, item);
    var i :| 0 <= i < |s.commits| && CommitKey(s.commits[i]) == k && s.commits[i].after == item.value;
    CommitLeaves(s.commits, i);
    VersionOrganizationSeparable(s, i);
    SeparableVersion(item.value, k, organization, collectionId);
    SkInjective(item.value.id, id);
  }

  lemma ReadHasCommit(cfg: Config, s: State, k: Key, item: Option<Feature>)
    requires HistoryOk(s) && MayRead(cfg, s, k, item) && item.Some?
    ensures exists i | 0 <= i < |s.commits| :: CommitKey(s.commits[i]) == k && s.commits[i].after == item.value
  {
    if item == Lookup(s.table, k) {
      var i := ItemHasCommit(s.commits, k);
    }
  }

  lemma VersionOrganizationSeparable(s: State, i: nat)
    requires Inv(s) && Serial(s.commits) && OrganizationsSeparable(s) && i < |s.commits|
    ensures Separable(s.commits[i].after.organization)
  {
    hide Inv, Stored, IsAtomic, Separable;
    var cs := s.commits[..i + 1];
    PrefixGood(s.commits, i + 1);
    forall j | 0 <= j < |cs| ensures Separable(cs[j].req.organization) {
      OwnerExists(s, j);
    }
    assert Final(cs) == s.commits[i];
    ItemOrganizationSeparable(cs, CommitKey(Final(cs)));
  }

  /** Items are never removed, and never change hands: with separable organization
      names an item keeps organization, collection and id for good. */
  lemma {:induction false} IdentityNeverChanges(cfg: Config, run: seq<State>, m: nat, n: nat, k: Key)
    requires IsRun(cfg, run) && m <= n < |run|
    requires k in run[m].table
    ensures k in run[n].table
    ensures run[n].table[k].createdAt == run[m].table[k].createdAt
    ensures OrganizationsSeparable(run[n]) ==>
      var f, g := run[m].table[k], run[n].table[k];
      f.organization == g.organization && f.collectionId == g.collectionId && f.id == g.id
  {
    ItemStays(cfg, run, m, n, k);
    if OrganizationsSeparable(run[n]) {
      var f := run[m].table[k];
      CommitsGrow(cfg, run, m, n);
      RequestsStayInRun(cfg, run, m, n);
      ItemsAreSound(cfg, run, m);
      RunKeeps(cfg, run, m);
      forall i | 0 <= i < |run[m].commits| ensures Separable(run[m].commits[i].req.organization) {
        OwnerExists(run[m], i);
      }
      ItemOrganizationSeparable(run[m].commits, k);
      ItemsAreSound(cfg, run, n);
      PartitionIsTenant(cfg, run, n, f.organization, f.collectionId, k);
      SkInjective(run[n].table[k].id, f.id);
    }
  }

  lemma {:induction false} ItemStays(cfg: Config, run: seq<State>, m: nat, n: nat, k: Key)
    requires IsRun(cfg, run) && m <= n < |run|
    requires k in run[m].table
    ensures k in run[n].table && run[n].table[k].createdAt == run[m].table[k].createdAt
  {
    if m < n {
      ItemStays(cfg, run, m, n - 1, k);
      CreationStays(cfg, run, n - 1, k);
    }
  }

  lemma CreationStays(cfg: Config, run: seq<State>, n: nat, k: Key)
    requires IsRun(cfg, run) && n + 1 < |run| && k in run[n].table
    ensures k in run[n + 1].table && run[n + 1].table[k].createdAt == run[n].table[k].createdAt
  {
    RunKeeps(cfg, run, n);
    StepRefinesAtomic(cfg, run, n);
    StepKeepsCreation(run[n], run[n + 1], k);
  }

  lemma StepKeepsCreation(s: State, s': State, k: Key)
    requires Inv(s) && RefinesAtomic(s, s') && k in s.table
    ensures k in s'.table && s'.table[k].createdAt == s.table[k].createdAt
  {
    hide Stored, WellFormed, Serial, Ordered, FreshTokens, ProcsOk, OwnersOk, LogOk, TokensApart;
    if s'.table != s.table {
      var c :| AtomicStep(s, s', c);
      TableIsSound(s.commits);
      WriteIsSound(Lookup(s.table, CommitKey(c)), c.req, c.stamp);
      StoredKeeps(c.response);
    }
  }

  // ---- Roles ------------------------------------------------------------------------------------------

  /** The handler has let the request through. */
  predicate PastChecks(pc: Pc) {
    pc.Permitted? || pc.Read? || pc.Prepared? || pc.Written? || pc.Done?
  }

  predicate RolesOk(p: Proc) {
    (PastChecks(p.pc) || (p.pc.Stopped? && PastChecks(p.pc.at))) ==> MayWrite(p.req.roles)
  }

  lemma NextKeepsRoles(cfg: Config, s: State, s': State, step: Step, rid: nat)
    requires NextBy(cfg, s, s', step) && rid in s'.procs
    requires rid in s.procs ==> RolesOk(s.procs[rid])
    ensures RolesOk(s'.procs[rid])
  {
    hide Stored, Build, DeleteRecord, RecordOf, WellFormed, CheckedRead, MayCreate, MayReplace, MayUpdate, Visible;
    hide MayRead, ConditionHolds, TargetKey, ItemKey, ChangeKeyOf, Lookup;
  }

  lemma {:induction false} RunKeepsRoles(cfg: Config, run: seq<State>, n: nat, rid: nat)
    requires IsRun(cfg, run) && n < |run| && rid in run[n].procs
    ensures RolesOk(run[n].procs[rid])
  {
    if n > 0 {
      assert Steps(cfg, run, n - 1);
      var step :| NextBy(cfg, run[n - 1], run[n], step);
      if rid in run[n - 1].procs {
        RunKeepsRoles(cfg, run, n - 1, rid);
      }
      NextKeepsRoles(cfg, run[n - 1], run[n], step, rid);
    }
  }

  /** Every change to the features table was asked for by an editor or an admin. */
  lemma OnlyWritersCommit(cfg: Config, run: seq<State>, n: nat, i: nat)
    requires IsRun(cfg, run) && n < |run| && i < |run[n].commits|
    ensures "editor" in run[n].commits[i].req.roles || "admin" in run[n].commits[i].req.roles
  {
    RunKeeps(cfg, run, n);
    var c := run[n].commits[i];
    assert OwnerOk(run[n], c);
    RunKeepsRoles(cfg, run, n, c.rid);
  }
}
