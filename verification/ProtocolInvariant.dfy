/** What every step of the write protocol keeps. */
module ProtocolInvariant {
  import opened Json
  import opened Features
  import opened Writes
  import opened Protocol
  import opened History

  // ---- The invariant -----------------------------------------------------------------------

  /** `f` is a live version that some commit left at `k`. */
  ghost predicate LiveVersion(cs: seq<Commit>, k: Key, f: Feature) {
    !f.deleted && exists i | 0 <= i < |cs| :: CommitKey(cs[i]) == k && cs[i].after == f
  }

  /** The request behind `rid` committed, and was answered with `response`. */
  ghost predicate Committed(cs: seq<Commit>, rid: nat, req: Request, response: Feature) {
    exists i | 0 <= i < |cs| :: cs[i].rid == rid && cs[i].req == req && cs[i].response == response
  }

  /** The record a commit owes to the change log. */
  function CommitRecord(c: Commit): ChangeRecord {
    ChangeRecord(c.req.collectionId, TargetId(c.req, c.stamp), c.req.organization, OperationName(c.req.op), c.stamp.now,
                 ToGeoJson(c.after))
  }

  ghost predicate OwesRecord(cs: seq<Commit>, rid: nat, record: ChangeRecord) {
    exists i | 0 <= i < |cs| :: cs[i].rid == rid && CommitRecord(cs[i]) == record
  }

  /** Between its table write and its log write, running or stopped there. */
  predicate LogPending(pc: Pc) {
    pc.Written? || (pc.Stopped? && pc.at.Written?)
  }

  ghost predicate ReadOk(s: State, req: Request, current: Feature) {
    && !req.op.Create?
    && LiveVersion(s.commits, ItemKey(req), current)
    && current.etag == req.op.ifMatch
  }

  ghost predicate PreparedOk(s: State, req: Request, base: Option<Feature>, stamp: Stamp, updated: Feature)
    requires WellFormed(req)
  {
    && (req.op.Create? <==> base.None?)
    && (base.Some? ==> ReadOk(s, req, base.value) && base.value.updatedAt < stamp.now)
    && Build(req, base, stamp) == Ok(updated)
    && stamp.now <= s.clock
    && stamp.etag in s.issued && stamp.etag !in Tokens(s.commits)
  }

  ghost predicate ProcOk(s: State, rid: nat, req: Request, pc: Pc) {
    && WellFormed(req)
    && match pc
       case Read(current) => ReadOk(s, req, current)
       case Prepared(base, stamp, updated) => PreparedOk(s, req, base, stamp, updated)
       case Written(record, response) => OwesRecord(s.commits, rid, record) && Committed(s.commits, rid, req, response)
       case Done(response) => Committed(s.commits, rid, req, response)
       case Stopped(at) =>
         at.Written? ==> OwesRecord(s.commits, rid, at.record) && Committed(s.commits, rid, req, at.response)
       case _ => true
  }

  ghost predicate ProcsOk(s: State) {
    forall rid | rid in s.procs :: ProcOk(s, rid, s.procs[rid].req, s.procs[rid].pc)
  }

  /** No two requests hold the same fresh ETag. */
  ghost predicate TokensApart(s: State) {
    forall a, b | a in s.procs && b in s.procs && a != b && s.procs[a].pc.Prepared? && s.procs[b].pc.Prepared? ::
      s.procs[a].pc.stamp.etag != s.procs[b].pc.stamp.etag
  }

  ghost predicate HistoryOk(s: State) {
    && Serial(s.commits) && Ordered(s.commits) && FreshTokens(s.commits)
    && s.table == Replay(s.commits)
    && Tokens(s.commits) <= s.issued
    && s.published <= Tokens(s.commits)
    && forall i | 0 <= i < |s.commits| :: s.commits[i].stamp.now <= s.clock
  }

  /** Each commit belongs to one request, which is past its table write. */
  ghost predicate OwnersOk(s: State) {
    && (forall i | 0 <= i < |s.commits| :: OwnerOk(s, s.commits[i]))
    && (forall i, j | 0 <= i < j < |s.commits| :: s.commits[i].rid != s.commits[j].rid)
  }

  ghost predicate OwnerOk(s: State, c: Commit) {
    && c.rid in s.procs && s.procs[c.rid].req == c.req
    && (LogPending(s.procs[c.rid].pc) || s.procs[c.rid].pc.Done?)
  }

  ghost predicate Logged(s: State, c: Commit) {
    var r := CommitRecord(c);
    ChangeKeyOf(r) in s.changes && s.changes[ChangeKeyOf(r)] == r
  }

  /** Every record is some commit's, and every commit is on record once its
      request is done. */
  ghost predicate LogOk(s: State) {
    && (forall ck | ck in s.changes :: RecordHasCommit(s, ck))
    && (forall i | 0 <= i < |s.commits| :: OnRecord(s, s.commits[i]))
  }

  ghost predicate OnRecord(s: State, c: Commit) {
    c.rid in s.procs && (LogPending(s.procs[c.rid].pc) || Logged(s, c))
  }

  ghost predicate RecordHasCommit(s: State, ck: ChangeKey)
    requires ck in s.changes
  {
    exists i | 0 <= i < |s.commits| :: RecordsCommit(s, ck, s.commits[i])
  }

  ghost predicate RecordsCommit(s: State, ck: ChangeKey, c: Commit)
    requires ck in s.changes
  {
    && ChangeKeyOf(CommitRecord(c)) == ck && CommitRecord(c) == s.changes[ck]
    && c.rid in s.procs && s.procs[c.rid].pc.Done?
  }

  ghost predicate Inv(s: State) {
    HistoryOk(s) && ProcsOk(s) && TokensApart(s) && OwnersOk(s) && LogOk(s)
  }

  // ---- Steps that leave both tables alone ------------------------------------------------------

  lemma ProcStays(s: State, s': State, rid: nat, req: Request, pc: Pc)
    requires ProcOk(s, rid, req, pc)
    requires s'.commits == s.commits && s.clock <= s'.clock && s.issued <= s'.issued
    ensures ProcOk(s', rid, req, pc)
  {
  }

  /** The two states differ in no commit or record, and requests past their
      table write have not moved. */
  ghost predicate SameTables(s: State, s': State) {
    && s'.commits == s.commits && s'.table == s.table && s'.changes == s.changes
    && s.clock <= s'.clock && s.issued <= s'.issued
    && forall r | r in s.procs :: Settles(s, s', r)
  }

  ghost predicate Settles(s: State, s': State, r: nat)
    requires r in s.procs
  {
    && r in s'.procs && s'.procs[r].req == s.procs[r].req
    && (s.procs[r].pc.Done? ==> s'.procs[r].pc.Done?)
    && (LogPending(s.procs[r].pc) ==> LogPending(s'.procs[r].pc))
  }

  lemma OwnerMoves(s: State, s': State, c: Commit)
    requires OwnerOk(s, c) && Settles(s, s', c.rid)
    ensures OwnerOk(s', c)
  {
  }

  lemma RecordMoves(s: State, s': State, c: Commit)
    requires OnRecord(s, c) && Settles(s, s', c.rid) && s'.changes == s.changes
    ensures OnRecord(s', c)
  {
  }

  lemma ListedMoves(s: State, s': State, ck: ChangeKey, c: Commit)
    requires ck in s.changes && RecordsCommit(s, ck, c) && Settles(s, s', c.rid)
    requires ck in s'.changes && s'.changes[ck] == s.changes[ck]
    ensures RecordsCommit(s', ck, c)
  {
  }

  lemma OwnersKept(s: State, s': State)
    requires OwnersOk(s) && SameTables(s, s')
    ensures OwnersOk(s')
  {
    forall i | 0 <= i < |s'.commits| ensures OwnerOk(s', s'.commits[i]) {
      assert OwnerOk(s, s.commits[i]);
      OwnerMoves(s, s', s.commits[i]);
    }
  }

  lemma LogKept(s: State, s': State)
    requires LogOk(s) && SameTables(s, s')
    ensures LogOk(s')
  {
    forall i | 0 <= i < |s'.commits| ensures OnRecord(s', s'.commits[i]) {
      assert OnRecord(s, s.commits[i]);
      RecordMoves(s, s', s.commits[i]);
    }
    forall ck | ck in s'.changes ensures RecordHasCommit(s', ck) {
      assert RecordHasCommit(s, ck);
      var i :| 0 <= i < |s.commits| && RecordsCommit(s, ck, s.commits[i]);
      ListedMoves(s, s', ck, s.commits[i]);
    }
  }

  lemma QuietStep(s: State, s': State, rid: nat, pc: Pc)
    requires Inv(s) && rid in s.procs && InFlight(s.procs[rid].pc)
    requires s'.procs == At(s, rid, pc)
    requires s'.commits == s.commits && s'.table == s.table && s'.changes == s.changes
    requires s'.published == s.published && s.clock <= s'.clock && s.issued <= s'.issued
    requires ProcOk(s', rid, s.procs[rid].req, pc)
    requires pc.Prepared? ==> pc.stamp.etag !in s.issued
    requires LogPending(s.procs[rid].pc) ==> LogPending(pc)
    ensures Inv(s')
  {
    hide Serial, Ordered, FreshTokens, Replay, Tokens, ProcsOk, OwnersOk, LogOk, TokensApart, ProcOk;
    OtherProcsStay(s, s', rid);
    QuietSettles(s, s', rid, pc);
    OwnersKept(s, s');
    LogKept(s, s');
    QuietTokens(s, s', rid, pc);
  }

  lemma QuietSettles(s: State, s': State, rid: nat, pc: Pc)
    requires rid in s.procs && InFlight(s.procs[rid].pc)
    requires s'.procs == At(s, rid, pc)
    requires LogPending(s.procs[rid].pc) ==> LogPending(pc)
    ensures forall r | r in s.procs :: Settles(s, s', r)
  {
  }

  /** All requests are well placed if all but `rid` stay where they were. */
  lemma OtherProcsStay(s: State, s': State, rid: nat)
    requires ProcsOk(s)
    requires s'.commits == s.commits && s.clock <= s'.clock && s.issued <= s'.issued
    requires forall r | r in s'.procs && r != rid :: r in s.procs && s'.procs[r] == s.procs[r]
    requires rid in s'.procs ==> ProcOk(s', rid, s'.procs[rid].req, s'.procs[rid].pc)
    ensures ProcsOk(s')
  {
    forall r | r in s'.procs ensures ProcOk(s', r, s'.procs[r].req, s'.procs[r].pc) {
      if r != rid {
        ProcStays(s, s', r, s.procs[r].req, s.procs[r].pc);
      }
    }
  }

  lemma QuietTokens(s: State, s': State, rid: nat, pc: Pc)
    requires TokensApart(s) && ProcsOk(s) && rid in s.procs
    requires s'.procs == At(s, rid, pc)
    requires pc.Prepared? ==> pc.stamp.etag !in s.issued
    ensures TokensApart(s')
  {
    forall r | r in s.procs && s.procs[r].pc.Prepared? ensures s.procs[r].pc.stamp.etag in s.issued {
      assert ProcOk(s, r, s.procs[r].req, s.procs[r].pc);
    }
  }

  lemma StartKeeps(cfg: Config, s: State, s': State, rid: nat, req: Request)
    requires Inv(s) && Start(cfg, s, s', rid, req)
    ensures Inv(s')
  {
    hide Serial, Ordered, FreshTokens, Replay, OwnersOk, LogOk, Stored;
    OtherProcsStay(s, s', rid);
    StartSettles(cfg, s, s', rid, req);
    OwnersKept(s, s');
    LogKept(s, s');
  }

  lemma StartSettles(cfg: Config, s: State, s': State, rid: nat, req: Request)
    requires Start(cfg, s, s', rid, req)
    ensures forall r | r in s.procs :: Settles(s, s', r)
  {
  }

  /** Whatever a read returns is absent, deleted, or a live version. */
  lemma ReadsVersions(cfg: Config, s: State, key: Key, item: Option<Feature>)
    requires HistoryOk(s) && MayRead(cfg, s, key, item)
    ensures item.Some? ==> item.value.deleted || LiveVersion(s.commits, key, item.value)
    ensures item.Some? ==> item.value.etag in Tokens(s.commits)
  {
    if item.Some? {
      if item == Lookup(s.table, key) {
        var i := ItemHasCommit(s.commits, key);
        assert CommitKey(s.commits[i]) == key && s.commits[i].after == item.value;
      }
    }
  }

  lemma ReadItemKeeps(cfg: Config, s: State, s': State, rid: nat, item: Option<Feature>)
    requires Inv(s) && ReadItem(cfg, s, s', rid, item)
    ensures Inv(s')
  {
    hide Serial, Ordered, FreshTokens, Replay, OwnersOk, LogOk, TokensApart, MayRead, Stored;
    ReadsVersions(cfg, s, ItemKey(s.procs[rid].req), item);
    QuietStep(s, s', rid, s'.procs[rid].pc);
  }

  /** A commit's time is that of its version, so no live version is younger than the clock. */
  lemma LiveVersionIsOld(s: State, k: Key, f: Feature)
    requires HistoryOk(s) && LiveVersion(s.commits, k, f)
    ensures f.updatedAt <= s.clock
  {
    var i :| 0 <= i < |s.commits| && CommitKey(s.commits[i]) == k && s.commits[i].after == f;
    CommitLeaves(s.commits, i);
  }

  lemma PrepareKeeps(s: State, s': State, rid: nat, stamp: Stamp)
    requires Inv(s) && Prepare(s, s', rid, stamp)
    ensures Inv(s')
  {
    hide Serial, Ordered, FreshTokens, Replay, OwnersOk, LogOk, TokensApart, Stored, LiveVersion;
    var req, pc := s.procs[rid].req, s.procs[rid].pc;
    assert ProcOk(s, rid, req, pc);
    if pc.Read? {
      LiveVersionIsOld(s, ItemKey(req), pc.current);
    }
    QuietStep(s, s', rid, s'.procs[rid].pc);
  }

  lemma GetKeeps(cfg: Config, s: State, s': State, key: Key, item: Option<Feature>)
    requires Inv(s) && Get(cfg, s, s', key, item)
    ensures Inv(s')
  {
    hide Serial, Ordered, FreshTokens, Replay, ProcOk, MayRead;
    ReadsVersions(cfg, s, key, item);
    forall r | r in s'.procs ensures ProcOk(s', r, s'.procs[r].req, s'.procs[r].pc) {
      ProcStays(s, s', r, s.procs[r].req, s.procs[r].pc);
    }
    assert forall r | r in s.procs :: Settles(s, s', r);
    OwnersKept(s, s');
    LogKept(s, s');
  }

  // ---- The conditional write ----------------------------------------------------------------------

  /** When the condition of the write holds, the version read earlier, however
      stale the read was, is the item it overwrites. */
  lemma BaseIsCurrent(s: State, rid: nat)
    requires Inv(s) && rid in s.procs && s.procs[rid].pc.Prepared? && !s.procs[rid].req.op.Create?
    requires ConditionHolds(s.table, ItemKey(s.procs[rid].req), s.procs[rid].req.op.ifMatch)
    ensures s.procs[rid].pc.base == Lookup(s.table, ItemKey(s.procs[rid].req))
  {
    var req, pc := s.procs[rid].req, s.procs[rid].pc;
    assert ProcOk(s, rid, req, pc);
    var i :| 0 <= i < |s.commits| && CommitKey(s.commits[i]) == ItemKey(req) && s.commits[i].after == pc.base.value;
    ReadIsCurrent(s.commits, ItemKey(req), i);
  }

  /** If the condition of its write holds, the version a request has prepared is
      what the atomic write makes of the item now stored. */
  lemma PreparedIsAtomic(s: State, rid: nat)
    requires Inv(s) && rid in s.procs && s.procs[rid].pc.Prepared?
    requires var req, pc := s.procs[rid].req, s.procs[rid].pc;
      if req.op.Create? then TargetKey(req, pc.stamp) !in s.table
      else ConditionHolds(s.table, ItemKey(req), req.op.ifMatch)
    ensures var req, pc := s.procs[rid].req, s.procs[rid].pc;
      && WellFormed(req)
      && AtomicWrite(Lookup(s.table, TargetKey(req, pc.stamp)), req, pc.stamp) == Ok(pc.updated)
      && (!req.op.Create? ==> pc.base == Lookup(s.table, ItemKey(req)) && pc.base.Some?
                              && pc.base.value.updatedAt < pc.stamp.now)
  {
    var req, pc := s.procs[rid].req, s.procs[rid].pc;
    assert ProcOk(s, rid, req, pc);
    if !req.op.Create? {
      BaseIsCurrent(s, rid);
    }
  }

  /** What the code puts into the features table and hands on for the log. */
  function AfterWrite(req: Request, item: Option<Feature>, updated: Feature, stamp: Stamp): Feature {
    if req.op.Delete? && item.Some? then item.value.(deleted := true, updatedAt := stamp.now) else Stored(updated)
  }

  function RecordAfter(req: Request, base: Option<Feature>, updated: Feature, stamp: Stamp): ChangeRecord {
    if req.op.Delete? && base.Some? then DeleteRecord(base.value, req, stamp)
    else RecordOf(updated, OperationName(req.op))
  }

  lemma WriteCommits(s: State, s': State, rid: nat)
    requires Write(s, s', rid) && s'.commits != s.commits
    ensures var req, pc := s.procs[rid].req, s.procs[rid].pc;
      && pc.Prepared?
      && (if req.op.Create? then TargetKey(req, pc.stamp) !in s.table
          else ConditionHolds(s.table, ItemKey(req), req.op.ifMatch))
      && Commits(s, s', rid,
                 AfterWrite(req, Lookup(s.table, TargetKey(req, pc.stamp)), pc.updated, pc.stamp),
                 RecordAfter(req, pc.base, pc.updated, pc.stamp))
  {
  }

  lemma AfterIsStored(req: Request, item: Option<Feature>, updated: Feature, stamp: Stamp)
    requires WellFormed(req)
    requires item.Some? ==> SoundItem(TargetKey(req, stamp), item.value)
    requires AtomicWrite(item, req, stamp) == Ok(updated)
    ensures AfterWrite(req, item, updated, stamp) == Stored(updated)
  {
    WriteIsSound(item, req, stamp);
  }

  lemma RecordIsCommitRecord(rid: nat, req: Request, item: Option<Feature>, updated: Feature, stamp: Stamp)
    requires WellFormed(req)
    requires AtomicWrite(item, req, stamp) == Ok(updated)
    ensures RecordAfter(req, item, updated, stamp) == CommitRecord(Commit(rid, req, stamp, updated, Stored(updated)))
  {
    RecordShowsStored(item, req, stamp);
  }

  /** The states around a successful write, and its commit. */
  ghost predicate Committing(s: State, s': State, rid: nat, c: Commit) {
    && rid in s.procs && s.procs[rid].pc.Prepared?
    && var pc := s.procs[rid].pc;
    && c.rid == rid && c.req == s.procs[rid].req && c.stamp == pc.stamp
    && IsAtomic(s.table, c)
    && StampedLater(s.table, c)
    && c.response == pc.updated
    && s' == s.(table := s.table[CommitKey(c) := c.after],
                procs := At(s, rid, Written(CommitRecord(c), pc.updated)),
                commits := s.commits + [c])
  }

  /** A successful conditional write is the atomic write on the item then stored,
      and the record it will log is that of the version it leaves. */
  lemma WriteIsAtomic(s: State, s': State, rid: nat)
    requires Inv(s) && Write(s, s', rid) && s'.commits != s.commits
    ensures s'.commits != [] && Front(s'.commits) == s.commits
    ensures rid in s.procs && Committing(s, s', rid, Final(s'.commits))
  {
    hide OwnersOk, LogOk, TokensApart, AtomicWrite, Stored, WellFormed, Serial, Ordered, FreshTokens;
    WriteCommits(s, s', rid);
    PreparedIsAtomic(s, rid);
    var req, pc := s.procs[rid].req, s.procs[rid].pc;
    var key := TargetKey(req, pc.stamp);
    var item := Lookup(s.table, key);
    assert item.Some? ==> SoundItem(key, item.value) by {
      TableIsSound(s.commits);
    }
    AfterIsStored(req, item, pc.updated, pc.stamp);
    RecordIsCommitRecord(rid, req, item, pc.updated, pc.stamp);
    var c := Commit(rid, req, pc.stamp, pc.updated, Stored(pc.updated));
    assert pc.base == item;
    assert Commits(s, s', rid, c.after, CommitRecord(c));
    Appended(s.commits, c);
  }

  // ---- The invariant over the table write ------------------------------------------------------------

  /** The new commit's ETag is either fresh or the one given up by a delete. */
  lemma CommitToken(s: State, s': State, rid: nat, c: Commit)
    requires Inv(s) && Committing(s, s', rid, c)
    ensures if c.req.op.Delete? then c.after.etag in Tokens(s.commits)
            else c.after.etag == c.stamp.etag && c.after.etag in s.issued && c.after.etag !in Tokens(s.commits)
    ensures c.after.etag == s.procs[rid].pc.updated.etag
  {
    hide Serial, Ordered, FreshTokens, OwnersOk, LogOk, TokensApart, Replay, LiveVersion, ReadOk, Stored, SoundItem;
    var item := Lookup(s.table, CommitKey(c));
    assert ProcOk(s, rid, s.procs[rid].req, s.procs[rid].pc);
    TableIsSound(s.commits);
    WriteIsSound(item, c.req, c.stamp);
    StoredKeeps(s.procs[rid].pc.updated);
    if c.req.op.Delete? {
      var i := ItemHasCommit(s.commits, CommitKey(c));
      assert s.commits[i].after.etag in Tokens(s.commits);
    }
  }

  lemma CommitHistory(s: State, s': State, rid: nat, c: Commit)
    requires Inv(s) && Committing(s, s', rid, c)
    ensures HistoryOk(s')
  {
    hide OwnersOk, LogOk, TokensApart, IsAtomic, StampedLater, LiveVersion, AtomicWrite, Stored;
    Appended(s.commits, c);
    TokensAppended(s.commits, c);
    CommitToken(s, s', rid, c);
    assert ProcOk(s, rid, s.procs[rid].req, s.procs[rid].pc);
  }

  lemma VersionsStay(s: State, s': State, c: Commit, k: Key, f: Feature)
    requires s'.commits == s.commits + [c] && LiveVersion(s.commits, k, f)
    ensures LiveVersion(s'.commits, k, f)
  {
    var i :| 0 <= i < |s.commits| && CommitKey(s.commits[i]) == k && s.commits[i].after == f;
    assert s'.commits[i] == s.commits[i];
  }

  lemma OwnedStays(s: State, s': State, c: Commit, rid: nat, req: Request)
    requires s'.commits == s.commits + [c]
    ensures forall response | Committed(s.commits, rid, req, response) :: Committed(s'.commits, rid, req, response)
    ensures forall record | OwesRecord(s.commits, rid, record) :: OwesRecord(s'.commits, rid, record)
  {
    assert forall i | 0 <= i < |s.commits| :: s'.commits[i] == s.commits[i];
  }

  lemma OtherProcStays(s: State, s': State, rid: nat, c: Commit, r: nat)
    requires Inv(s) && Committing(s, s', rid, c) && r in s.procs && r != rid
    ensures ProcOk(s', r, s.procs[r].req, s.procs[r].pc)
  {
    hide OwnersOk, LogOk, AtomicWrite, Stored;
    var req, pc := s.procs[r].req, s.procs[r].pc;
    assert ProcOk(s, r, req, pc);
    TokensAppended(s.commits, c);
    match pc
    case Read(current) => VersionsStay(s, s', c, ItemKey(req), current);
    case Prepared(base, stamp, updated) =>
      CommitToken(s, s', rid, c);
      if base.Some? {
        VersionsStay(s, s', c, ItemKey(req), base.value);
      }
    case Written(record, response) => OwnedStays(s, s', c, r, req);
    case Done(response) => OwnedStays(s, s', c, r, req);
    case Stopped(at) => OwnedStays(s, s', c, r, req);
    case _ =>
  }

  lemma CommitProcs(s: State, s': State, rid: nat, c: Commit)
    requires Inv(s) && Committing(s, s', rid, c)
    ensures ProcsOk(s') && TokensApart(s')
  {
    hide IsAtomic, StampedLater, HistoryOk, OwnersOk, LogOk, AtomicWrite, Stored;
    forall r | r in s'.procs ensures ProcOk(s', r, s'.procs[r].req, s'.procs[r].pc) {
      if r != rid {
        OtherProcStays(s, s', rid, c, r);
      } else {
        CommitToken(s, s', rid, c);
        assert s'.commits[|s.commits|] == c;
        assert ProcOk(s, rid, s.procs[rid].req, s.procs[rid].pc);
      }
    }
  }

  lemma CommitSettles(s: State, s': State, rid: nat, c: Commit, r: nat)
    requires Committing(s, s', rid, c) && r in s.procs
    ensures Settles(s, s', r)
  {
  }

  lemma CommitOwners(s: State, s': State, rid: nat, c: Commit)
    requires Inv(s) && Committing(s, s', rid, c)
    ensures OwnersOk(s')
  {
    hide HistoryOk, ProcsOk, LogOk, TokensApart, IsAtomic, StampedLater, AtomicWrite, Stored;
    var n := |s.commits|;
    forall i | 0 <= i < n ensures s.commits[i].rid != rid && OwnerOk(s', s.commits[i]) {
      assert OwnerOk(s, s.commits[i]);
      CommitSettles(s, s', rid, c, s.commits[i].rid);
      OwnerMoves(s, s', s.commits[i]);
    }
    assert OwnerOk(s', c);
    OwnersAppended(s, s', c);
  }

  lemma OwnersAppended(s: State, s': State, c: Commit)
    requires OwnersOk(s) && s'.commits == s.commits + [c]
    requires forall i | 0 <= i < |s.commits| :: s.commits[i].rid != c.rid && OwnerOk(s', s.commits[i])
    requires OwnerOk(s', c)
    ensures OwnersOk(s')
  {
    forall i | 0 <= i < |s'.commits| ensures OwnerOk(s', s'.commits[i]) {
      if i < |s.commits| {
        assert s'.commits[i] == s.commits[i];
      }
    }
  }

  lemma CommitLog(s: State, s': State, rid: nat, c: Commit)
    requires Inv(s) && Committing(s, s', rid, c)
    ensures LogOk(s')
  {
    hide HistoryOk, ProcsOk, TokensApart, OwnersOk, IsAtomic, StampedLater, AtomicWrite, Stored;
    hide CommitRecord, ChangeKeyOf;
    forall i | 0 <= i < |s'.commits| ensures OnRecord(s', s'.commits[i]) {
      if i < |s.commits| {
        assert s'.commits[i] == s.commits[i];
        assert OnRecord(s, s.commits[i]);
        CommitSettles(s, s', rid, c, s.commits[i].rid);
        RecordMoves(s, s', s.commits[i]);
      } else {
        assert s'.commits[i] == c;
      }
    }
    forall ck | ck in s'.changes ensures RecordHasCommit(s', ck) {
      assert RecordHasCommit(s, ck);
      var i :| 0 <= i < |s.commits| && RecordsCommit(s, ck, s.commits[i]);
      CommitSettles(s, s', rid, c, s.commits[i].rid);
      ListedMoves(s, s', ck, s.commits[i]);
      assert s'.commits[i] == s.commits[i];
    }
  }

  lemma WriteKeeps(s: State, s': State, rid: nat)
    requires Inv(s) && Write(s, s', rid)
    ensures Inv(s')
  {
    hide HistoryOk, ProcsOk, OwnersOk, LogOk, TokensApart, AtomicWrite, Stored, Write, Committing;
    if s'.commits == s.commits {
      FailedWriteKeeps(s, s', rid);
    } else {
      WriteIsAtomic(s, s', rid);
      var c := Final(s'.commits);
      CommitHistory(s, s', rid, c);
      CommitProcs(s, s', rid, c);
      CommitOwners(s, s', rid, c);
      CommitLog(s, s', rid, c);
    }
  }

  lemma FailedWriteKeeps(s: State, s': State, rid: nat)
    requires Inv(s) && Write(s, s', rid) && s'.commits == s.commits
    ensures Inv(s')
  {
    hide AtomicWrite, Stored, Write, HistoryOk, OwnersOk, LogOk, TokensApart;
    WriteFails(s, s', rid);
    assert ProcOk(s, rid, s.procs[rid].req, s.procs[rid].pc);
    QuietStep(s, s', rid, s'.procs[rid].pc);
  }

  lemma WriteFails(s: State, s': State, rid: nat)
    requires Write(s, s', rid) && s'.commits == s.commits
    ensures rid in s.procs && s.procs[rid].pc.Prepared?
    ensures exists e :: s' == s.(procs := At(s, rid, Failed(e)))
  {
    hide Stored, RecordOf, DeleteRecord, WellFormed;
  }

  // ---- The log write ----------------------------------------------------------------------------------

  /** No two commits are filed under one key of the changes table. */
  lemma ChangeKeysApart(s: State, i: nat, j: nat)
    requires HistoryOk(s) && i < j < |s.commits|
    ensures ChangeKeyOf(CommitRecord(s.commits[i])) != ChangeKeyOf(CommitRecord(s.commits[j]))
  {
    if CommitKey(s.commits[i]) == CommitKey(s.commits[j]) {
      StampsAscend(s.commits, i, j);
    }
  }

  lemma LogSettles(s: State, s': State, rid: nat, r: nat)
    requires Log(s, s', rid) && r in s.procs && r != rid
    ensures Settles(s, s', r)
  {
  }

  lemma LogKeepsLog(s: State, s': State, rid: nat, n: nat)
    requires Inv(s) && Log(s, s', rid)
    requires n < |s.commits| && s.commits[n].rid == rid && CommitRecord(s.commits[n]) == s.procs[rid].pc.record
    ensures LogOk(s')
  {
    var record := s.procs[rid].pc.record;
    assert RecordsCommit(s', ChangeKeyOf(record), s'.commits[n]);
    forall i | 0 <= i < |s'.commits| ensures OnRecord(s', s'.commits[i]) {
      if i != n {
        LoggedStays(s, s', rid, n, i);
      }
    }
    forall ck | ck in s'.changes ensures RecordHasCommit(s', ck) {
      if ck != ChangeKeyOf(record) {
        assert RecordHasCommit(s, ck);
        var i :| 0 <= i < |s.commits| && RecordsCommit(s, ck, s.commits[i]);
        LogSettles(s, s', rid, s.commits[i].rid);
        ListedMoves(s, s', ck, s.commits[i]);
      }
    }
  }

  lemma LoggedStays(s: State, s': State, rid: nat, n: nat, i: nat)
    requires Inv(s) && Log(s, s', rid)
    requires n < |s.commits| && s.commits[n].rid == rid && CommitRecord(s.commits[n]) == s.procs[rid].pc.record
    requires i < |s.commits| && i != n
    ensures OnRecord(s', s.commits[i])
  {
    hide Serial, Ordered, FreshTokens, Replay, ProcsOk, TokensApart;
    assert OnRecord(s, s.commits[i]);
    assert s.commits[i].rid != rid;
    if i < n {
      ChangeKeysApart(s, i, n);
    } else {
      ChangeKeysApart(s, n, i);
    }
  }

  lemma LogKeepsOwners(s: State, s': State, rid: nat)
    requires Inv(s) && Log(s, s', rid)
    ensures OwnersOk(s')
  {
    forall i | 0 <= i < |s'.commits| ensures OwnerOk(s', s'.commits[i]) {
      assert OwnerOk(s, s.commits[i]);
    }
  }

  lemma LogKeepsProcs(s: State, s': State, rid: nat)
    requires Inv(s) && Log(s, s', rid)
    ensures ProcsOk(s') && TokensApart(s')
  {
    hide HistoryOk, OwnersOk, LogOk, ChangeKeyOf;
    forall r | r in s'.procs ensures ProcOk(s', r, s'.procs[r].req, s'.procs[r].pc) {
      ProcStays(s, s', r, s.procs[r].req, s.procs[r].pc);
    }
  }

  /** The ETag a request answers is that of the version it left. */
  lemma {:induction false} ResponseToken(cs: seq<Commit>, i: nat)
    requires Serial(cs) && i < |cs|
    ensures cs[i].response.etag == cs[i].after.etag
  {
    if i < |cs| - 1 {
      ResponseToken(Front(cs), i);
    } else {
      StoredKeeps(cs[i].response);
    }
  }

  lemma LogPublishes(s: State, s': State, rid: nat)
    requires Inv(s) && Log(s, s', rid)
    ensures HistoryOk(s')
  {
    hide Serial, Ordered, FreshTokens, Replay, OwnersOk, LogOk, TokensApart, ChangeKeyOf, OwesRecord;
    var pc := s.procs[rid].pc;
    assert ProcOk(s, rid, s.procs[rid].req, pc);
    var m :| 0 <= m < |s.commits| && s.commits[m].response == pc.response;
    ResponseToken(s.commits, m);
    assert s.commits[m].after.etag in Tokens(s.commits);
  }

  lemma LogKeeps(s: State, s': State, rid: nat)
    requires Inv(s) && Log(s, s', rid)
    ensures Inv(s')
  {
    hide HistoryOk, OwnersOk, LogOk, TokensApart;
    assert ProcOk(s, rid, s.procs[rid].req, s.procs[rid].pc);
    var n :| 0 <= n < |s.commits| && s.commits[n].rid == rid && CommitRecord(s.commits[n]) == s.procs[rid].pc.record;
    LogKeepsLog(s, s', rid, n);
    LogKeepsOwners(s, s', rid);
    LogKeepsProcs(s, s', rid);
    LogPublishes(s, s', rid);
  }

  // ---- Every step, every run ---------------------------------------------------------------------------

  lemma PermitKeeps(cfg: Config, s: State, s': State, rid: nat, item: Option<Feature>)
    requires Inv(s) && Permit(cfg, s, s', rid, item)
    ensures Inv(s')
  {
    hide Serial, Ordered, FreshTokens, Replay, OwnersOk, LogOk, TokensApart, Stored, MayRead, HistoryOk;
    QuietStep(s, s', rid, s'.procs[rid].pc);
  }

  lemma StopKeeps(s: State, s': State, rid: nat)
    requires Inv(s) && Stop(s, s', rid)
    ensures Inv(s')
  {
    hide HistoryOk, OwnersOk, LogOk, TokensApart, LiveVersion, ReadOk, PreparedOk;
    assert ProcOk(s, rid, s.procs[rid].req, s.procs[rid].pc);
    QuietStep(s, s', rid, s'.procs[rid].pc);
  }

  lemma StepKeeps(cfg: Config, s: State, s': State, step: Step)
    requires Inv(s) && NextBy(cfg, s, s', step)
    ensures Inv(s')
  {
    match step
    case StartStep(rid, req) => StartKeeps(cfg, s, s', rid, req);
    case PermitStep(rid, item) => PermitKeeps(cfg, s, s', rid, item);
    case ReadStep(rid, item) => ReadItemKeeps(cfg, s, s', rid, item);
    case PrepareStep(rid, stamp) => PrepareKeeps(s, s', rid, stamp);
    case WriteStep(rid) => WriteKeeps(s, s', rid);
    case LogStep(rid) => LogKeeps(s, s', rid);
    case StopStep(rid) => StopKeeps(s, s', rid);
    case GetStep(key, item) => GetKeeps(cfg, s, s', key, item);
  }

  /** The invariant holds in every state of every run. */
  lemma {:induction false} RunKeeps(cfg: Config, run: seq<State>, n: nat)
    requires IsRun(cfg, run) && n < |run|
    ensures Inv(run[n])
  {
    if n > 0 {
      RunKeeps(cfg, run, n - 1);
      assert Steps(cfg, run, n - 1);
      var step :| NextBy(cfg, run[n - 1], run[n], step);
      StepKeeps(cfg, run[n - 1], run[n], step);
    }
  }
}
