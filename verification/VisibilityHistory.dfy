/** Visibility under reads of any staleness: whatever callers who are not admins do,
    they can only give a feature a visibility that it had before. */
module VisibilityHistory {
  import opened Json
  import opened Features
  import opened Auth
  import opened Writes
  import opened Protocol
  import opened History
  import opened ProtocolInvariant
  import opened ProtocolTheorems
  import opened ProtocolVisibility

  predicate Left(c: Commit, k: Key, visibility: string) {
    CommitKey(c) == k && !c.after.deleted && c.after.visibility == visibility
  }

  /** Some live version at the key had the visibility. */
  ghost predicate Had(cs: seq<Commit>, k: Key, visibility: string) {
    exists i | 0 <= i < |cs| :: Left(cs[i], k, visibility)
  }

  lemma HadMore(cs: seq<Commit>, c: Commit, k: Key, visibility: string)
    ensures Had(cs + [c], k, visibility) <==> Had(cs, k, visibility) || Left(c, k, visibility)
  {
    var ds := cs + [c];
    assert ds[|cs|] == c;
    if i :| 0 <= i < |cs| && Left(cs[i], k, visibility) {
      assert ds[i] == cs[i];
    }
  }

  /** The item in the table has a visibility that a live version had, be it deleted since. */
  lemma {:induction false} TableHad(cs: seq<Commit>, k: Key)
    requires Serial(cs) && k in Replay(cs)
    ensures Had(cs, k, Replay(cs)[k].visibility)
  {
    hide Stored;
    var front, c := Front(cs), Final(cs);
    assert cs == front + [c];
    HadMore(front, c, k, Replay(cs)[k].visibility);
    CommitLeaves(cs, |cs| - 1);
    if CommitKey(c) == k && c.req.op.Delete? {
      TableHad(front, k);
      StoredKeeps(c.response);
    } else if CommitKey(c) != k {
      TableHad(front, k);
    }
  }

  // ---- What the handler's checks leave to a caller who is not an admin ---------------------------------

  predicate OnTheWay(pc: Pc) {
    pc.Permitted? || pc.Read? || pc.Prepared?
  }

  /** The request names no visibility, or one that a live version of its item had. */
  ghost predicate Backed(cs: seq<Commit>, req: Request)
    requires WellFormed(req)
  {
    match req.op
    case Create(body) => MayCreate(req.roles, body)
    case Replace(_, body, _) =>
      "visibility" in PropertiesIn(body) ==> Had(cs, ItemKey(req), PropertiesIn(body)["visibility"].s)
    case Update(_, patch, _) => MayUpdate(req.roles, patch)
    case Delete(_, _) => true
  }

  ghost predicate ProcBacked(cs: seq<Commit>, p: Proc) {
    OnTheWay(p.pc) && "admin" !in p.req.roles ==> WellFormed(p.req) && Backed(cs, p.req)
  }

  lemma BackedStays(s: State, s': State, p: Proc)
    requires RefinesAtomic(s, s') && ProcBacked(s.commits, p)
    ensures ProcBacked(s'.commits, p)
  {
    if s'.commits != s.commits {
      var c :| AtomicStep(s, s', c);
      if p.req.op.Replace? && WellFormed(p.req) && "visibility" in PropertiesIn(p.req.op.body) {
        HadMore(s.commits, c, ItemKey(p.req), PropertiesIn(p.req.op.body)["visibility"].s);
      }
    }
  }

  /** The check of a PUT passes only on a version with the visibility asked for. */
  lemma PermitBacks(cfg: Config, s: State, s': State, rid: nat, item: Option<Feature>)
    requires Inv(s) && Permit(cfg, s, s', rid, item)
    ensures ProcBacked(s'.commits, s'.procs[rid])
  {
    hide Serial, Ordered, FreshTokens, Replay, ProcsOk, OwnersOk, LogOk, TokensApart, MayRead, Stored;
    var req := s.procs[rid].req;
    if req.op.Replace? {
      ReadsVersions(cfg, s, ItemKey(req), item);
    }
  }

  /** Any other step on the way was taken by a request already on the way. */
  lemma StaysOnTheWay(cfg: Config, s: State, s': State, step: Step, rid: nat)
    requires NextBy(cfg, s, s', step) && rid in s'.procs && !(step.PermitStep? && step.rid == rid)
    ensures OnTheWay(s'.procs[rid].pc) ==>
      rid in s.procs && s.procs[rid].req == s'.procs[rid].req && OnTheWay(s.procs[rid].pc)
  {
    hide Stored, Build, DeleteRecord, RecordOf, WellFormed, Checks, CheckedRead;
    hide MayRead, ConditionHolds, TargetKey, ItemKey, ChangeKeyOf, Lookup;
  }

  lemma StepKeepsBacked(cfg: Config, s: State, s': State, step: Step, rid: nat)
    requires Inv(s) && NextBy(cfg, s, s', step) && rid in s'.procs
    requires rid in s.procs ==> ProcBacked(s.commits, s.procs[rid])
    ensures ProcBacked(s'.commits, s'.procs[rid])
  {
    hide Inv, Backed, WellFormed, Permit;
    if step.PermitStep? && step.rid == rid {
      PermitBacks(cfg, s, s', rid, step.item);
    } else {
      StaysOnTheWay(cfg, s, s', step, rid);
      NextRefines(cfg, s, s', step);
      if rid in s.procs {
        BackedStays(s, s', s.procs[rid]);
      }
    }
  }

  lemma {:induction false} RunKeepsBacked(cfg: Config, run: seq<State>, n: nat, rid: nat)
    requires IsRun(cfg, run) && n < |run| && rid in run[n].procs
    ensures ProcBacked(run[n].commits, run[n].procs[rid])
  {
    hide Inv, Backed;
    if n > 0 {
      RunKeeps(cfg, run, n - 1);
      assert Steps(cfg, run, n - 1);
      var step :| NextBy(cfg, run[n - 1], run[n], step);
      if rid in run[n - 1].procs {
        RunKeepsBacked(cfg, run, n - 1, rid);
      }
      StepKeepsBacked(cfg, run[n - 1], run[n], step, rid);
    }
  }

  // ---- The theorem ----------------------------------------------------------------------------------------

  /** A backed write leaves the visibility of the item it overwrites, or the one it is
      backed by. */
  lemma BackedVisibility(cs: seq<Commit>, item: Feature, req: Request, stamp: Stamp)
    requires WellFormed(req) && !req.op.Create? && "admin" !in req.roles && Backed(cs, req)
    requires CleanProperties(item) && Had(cs, ItemKey(req), item.visibility)
    requires AtomicWrite(Some(item), req, stamp).Ok?
    ensures Had(cs, ItemKey(req), AtomicWrite(Some(item), req, stamp).value.visibility)
  {
    hide Had;
    if !req.op.Replace? {
      EditorKeepsVisibility(Some(item), req, stamp);
    }
  }

  ghost predicate EarlierVisibility(cs: seq<Commit>, c: Commit) {
    if c.req.op.Create? then c.after.visibility == "public"
    else Had(cs, CommitKey(c), c.after.visibility)
  }

  lemma CommitIsBacked(s: State, s': State, rid: nat)
    requires Inv(s) && Write(s, s', rid) && s'.commits != s.commits
    requires ProcBacked(s.commits, s.procs[rid]) && "admin" !in s.procs[rid].req.roles
    ensures s'.commits != [] && EarlierVisibility(s.commits, Final(s'.commits))
  {
    hide Serial, Ordered, FreshTokens, ProcsOk, OwnersOk, LogOk, TokensApart, Had, AtomicWrite, Stored;
    hide Write, Replay, Backed;
    WriteIsAtomic(s, s', rid);
    var c := Final(s'.commits);
    var item := Lookup(s.table, CommitKey(c));
    StoredKeeps(c.response);
    if c.req.op.Create? {
      CreatedIsPublic(s.commits, item, c.req, c.stamp);
    } else {
      OverwritesItem(item, c.req, c.stamp);
      TableIsSound(s.commits);
      TableHad(s.commits, CommitKey(c));
      BackedVisibility(s.commits, item.value, c.req, c.stamp);
    }
  }

  lemma CreatedIsPublic(cs: seq<Commit>, item: Option<Feature>, req: Request, stamp: Stamp)
    requires WellFormed(req) && req.op.Create? && "admin" !in req.roles && Backed(cs, req)
    requires AtomicWrite(item, req, stamp).Ok?
    ensures AtomicWrite(item, req, stamp).value.visibility == DEFAULT_VISIBILITY
  {
  }

  lemma OverwritesItem(item: Option<Feature>, req: Request, stamp: Stamp)
    requires WellFormed(req) && !req.op.Create? && AtomicWrite(item, req, stamp).Ok?
    ensures item.Some?
  {
  }

  lemma OnlyWritesCommit(cfg: Config, s: State, s': State, step: Step)
    requires NextBy(cfg, s, s', step) && s'.commits != s.commits
    ensures step.WriteStep? && step.rid in s.procs && s.procs[step.rid].pc.Prepared?
  {
    hide Stored, Build, DeleteRecord, RecordOf, WellFormed, Checks, CheckedRead, MayRead;
  }

  lemma NextLeavesEarlier(cfg: Config, s: State, s': State, step: Step)
    requires Inv(s) && NextBy(cfg, s, s', step) && s'.commits != s.commits
    requires forall rid | rid in s.procs :: ProcBacked(s.commits, s.procs[rid])
    ensures s'.commits != [] && AtomicStep(s, s', Final(s'.commits))
    ensures "admin" !in Final(s'.commits).req.roles ==> EarlierVisibility(s.commits, Final(s'.commits))
  {
    hide Inv, ProcBacked, IsAtomic, Write, EarlierVisibility;
    OnlyWritesCommit(cfg, s, s', step);
    WriteIsAtomic(s, s', step.rid);
    if "admin" !in s.procs[step.rid].req.roles {
      CommitIsBacked(s, s', step.rid);
    }
  }

  /** However stale the reads and wherever the If-Match values come from: a commit of a
      caller who is not an admin leaves a visibility that an earlier live version of
      the feature had, or creates a public feature. */
  lemma EditorCommitLeavesEarlierVisibility(cfg: Config, run: seq<State>, n: nat)
    requires IsRun(cfg, run) && n + 1 < |run| && run[n + 1].commits != run[n].commits
    ensures run[n + 1].commits != [] && AtomicStep(run[n], run[n + 1], Final(run[n + 1].commits))
    ensures "admin" !in Final(run[n + 1].commits).req.roles ==>
      EarlierVisibility(run[n].commits, Final(run[n + 1].commits))
  {
    hide Inv, ProcBacked;
    RunKeeps(cfg, run, n);
    forall rid | rid in run[n].procs ensures ProcBacked(run[n].commits, run[n].procs[rid]) {
      RunKeepsBacked(cfg, run, n, rid);
    }
    assert Steps(cfg, run, n);
    var step :| NextBy(cfg, run[n], run[n + 1], step);
    NextLeavesEarlier(cfg, run[n], run[n + 1], step);
  }

  /** Without admins no new visibility comes to a feature. */
  lemma {:induction false} EditorsBringNothingNew(cfg: Config, run: seq<State>, m: nat, n: nat, k: Key,
                                                  visibility: string)
    requires IsRun(cfg, run) && m <= n < |run| && k in run[m].table
    requires NoAdminFrom(run[n].commits, |run[m].commits|)
    requires Had(run[n].commits, k, visibility)
    ensures Had(run[m].commits, k, visibility)
  {
    hide Had, AtomicWrite;
    if m < n {
      CommitsGrow(cfg, run, n - 1, n);
      CommitsGrow(cfg, run, m, n - 1);
      ItemStays(cfg, run, m, n - 1, k);
      NothingNewInStep(cfg, run, n - 1, |run[m].commits|, k, visibility);
      EditorsBringNothingNew(cfg, run, m, n - 1, k, visibility);
    }
  }

  lemma NothingNewInStep(cfg: Config, run: seq<State>, n: nat, from: nat, k: Key, visibility: string)
    requires IsRun(cfg, run) && n + 1 < |run| && k in run[n].table
    requires from <= |run[n].commits| && NoAdminFrom(run[n + 1].commits, from)
    requires Had(run[n + 1].commits, k, visibility)
    ensures Had(run[n].commits, k, visibility)
  {
    hide Had, Stored;
    if run[n + 1].commits != run[n].commits {
      EditorCommitLeavesEarlierVisibility(cfg, run, n);
      HadMore(run[n].commits, Final(run[n + 1].commits), k, visibility);
    }
  }

  /** Over any stretch of a run without admin commits, under reads of any staleness, a
      feature ends with a visibility that one of its live versions had at the start. */
  lemma EditorsOnlyRestore(cfg: Config, run: seq<State>, m: nat, n: nat, k: Key)
    requires IsRun(cfg, run) && m <= n < |run| && k in run[m].table
    requires NoAdminFrom(run[n].commits, |run[m].commits|)
    ensures k in run[n].table && Had(run[m].commits, k, run[n].table[k].visibility)
  {
    hide Had, Serial;
    ItemStays(cfg, run, m, n, k);
    RunIsSerializable(cfg, run, n);
    TableHad(run[n].commits, k);
    EditorsBringNothingNew(cfg, run, m, n, k, run[n].table[k].visibility);
  }

  /** So a feature whose visibility never varied keeps it. */
  lemma SteadyVisibilityIsSafe(cfg: Config, run: seq<State>, m: nat, n: nat, k: Key, visibility: string)
    requires IsRun(cfg, run) && m <= n < |run| && k in run[m].table
    requires NoAdminFrom(run[n].commits, |run[m].commits|)
    requires forall v | Had(run[m].commits, k, v) :: v == visibility
    ensures k in run[n].table && run[n].table[k].visibility == run[m].table[k].visibility == visibility
  {
    hide Had, IsRun;
    EditorsOnlyRestore(cfg, run, m, n, k);
    RunIsSerializable(cfg, run, m);
    TableHad(run[m].commits, k);
  }
}
