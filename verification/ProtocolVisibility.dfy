/** Visibility under concurrency: a PUT is checked against one read and writes
    after a second, yet no write of a caller who is not an admin ever changes the
    visibility of the item it overwrites. Reads are consistent here, and If-Match
    values come from responses completed before the request began. */
module ProtocolVisibility {
  import opened Json
  import opened Features
  import opened Auth
  import opened Writes
  import opened Protocol
  import opened History
  import opened ProtocolInvariant
  import opened ProtocolTheorems

  const CAREFUL := Config(true, true)

  /** The ETag the request names belongs to a version committed already. */
  ghost predicate Known(s: State, req: Request) {
    !req.op.Create? ==> req.op.ifMatch in Tokens(s.commits)
  }

  /** The request may overwrite an item of the given visibility. */
  predicate Allowed(req: Request, visibility: string)
    requires WellFormed(req)
  {
    match req.op
    case Create(body) => MayCreate(req.roles, body)
    case Replace(_, body, _) => MayReplace(req.roles, body, visibility)
    case Update(_, patch, _) => MayUpdate(req.roles, patch)
    case Delete(_, _) => true
  }

  /** The check was made on the version the request is going to overwrite, as long
      as that version is still the current one. */
  ghost predicate CheckedOn(s: State, req: Request, pc: Pc)
    requires WellFormed(req)
  {
    match pc
    case Permitted =>
      if req.op.Create? then Allowed(req, DEFAULT_VISIBILITY)
      else ConditionHolds(s.table, ItemKey(req), req.op.ifMatch) ==> Allowed(req, s.table[ItemKey(req)].visibility)
    case Read(current) => Allowed(req, current.visibility)
    case Prepared(base, _, _) => Allowed(req, if base.Some? then base.value.visibility else DEFAULT_VISIBILITY)
    case _ => true
  }

  ghost predicate RequestChecked(s: State, rid: nat)
    requires rid in s.procs
  {
    var req := s.procs[rid].req;
    WellFormed(req) && Known(s, req) && CheckedOn(s, req, s.procs[rid].pc)
  }

  ghost predicate AllChecked(s: State) {
    forall rid | rid in s.procs :: RequestChecked(s, rid)
  }

  lemma TokensGrow(s: State, s': State)
    requires RefinesAtomic(s, s')
    ensures Tokens(s.commits) <= Tokens(s'.commits)
  {
    if s'.commits != s.commits {
      var c :| AtomicStep(s, s', c);
      TokensAppended(s.commits, c);
    }
  }

  /** Whoever overwrites the item in between leaves an ETag other than the one named. */
  lemma OverwrittenIsOther(s: State, s': State, k: Key, token: string)
    requires HistoryOk(s) && HistoryOk(s') && RefinesAtomic(s, s') && token in Tokens(s.commits)
    ensures ConditionHolds(s'.table, k, token) ==> k in s.table && s'.table[k] == s.table[k]
  {
    if s'.commits != s.commits {
      var c :| AtomicStep(s, s', c);
      Appended(s.commits, c);
      NewTokenIsOther(s'.commits, token);
    }
  }

  /** A request that does not move stays checked. */
  lemma OtherStaysChecked(s: State, s': State, rid: nat)
    requires HistoryOk(s) && HistoryOk(s') && RefinesAtomic(s, s')
    requires rid in s.procs && RequestChecked(s, rid)
    requires rid in s'.procs && s'.procs[rid] == s.procs[rid]
    ensures RequestChecked(s', rid)
  {
    TokensGrow(s, s');
    var req, pc := s.procs[rid].req, s.procs[rid].pc;
    if pc.Permitted? && !req.op.Create? {
      OverwrittenIsOther(s, s', ItemKey(req), req.op.ifMatch);
    }
  }

  lemma PermitChecked(s: State, s': State, rid: nat, item: Option<Feature>)
    requires Permit(CAREFUL, s, s', rid, item) && RequestChecked(s, rid)
    ensures RequestChecked(s', rid)
  {
  }

  lemma ReadChecked(s: State, s': State, rid: nat, item: Option<Feature>)
    requires ReadItem(CAREFUL, s, s', rid, item) && RequestChecked(s, rid)
    ensures RequestChecked(s', rid)
  {
  }

  lemma PrepareChecked(s: State, s': State, rid: nat, stamp: Stamp)
    requires Prepare(s, s', rid, stamp) && RequestChecked(s, rid)
    ensures RequestChecked(s', rid)
  {
  }

  /** Past the checks only the named ETag matters. */
  lemma LaterChecked(s: State, s': State, rid: nat)
    requires rid in s.procs && RequestChecked(s, rid) && Tokens(s.commits) <= Tokens(s'.commits)
    requires rid in s'.procs && s'.procs[rid].req == s.procs[rid].req
    requires var pc := s'.procs[rid].pc; !pc.Permitted? && !pc.Read? && !pc.Prepared?
    ensures RequestChecked(s', rid)
  {
  }

  lemma LaterSteps(s: State, s': State, rid: nat, step: Step)
    requires NextBy(CAREFUL, s, s', step) && rid in s.procs
    requires (step.WriteStep? || step.LogStep? || step.StopStep?) && step.rid == rid
    ensures rid in s'.procs && s'.procs[rid].req == s.procs[rid].req
    ensures var pc := s'.procs[rid].pc; !pc.Permitted? && !pc.Read? && !pc.Prepared?
  {
    hide Stored, Build, DeleteRecord, RecordOf, WellFormed, Checks, CheckedRead;
    hide MayRead, ConditionHolds, TargetKey, ItemKey, ChangeKeyOf, Lookup;
  }

  lemma MoverStaysChecked(s: State, s': State, rid: nat, step: Step)
    requires NextBy(CAREFUL, s, s', step) && RefinesAtomic(s, s')
    requires rid in s.procs && RequestChecked(s, rid)
    requires !step.StartStep? && !step.GetStep? && step.rid == rid
    ensures RequestChecked(s', rid)
  {
    match step
    case PermitStep(_, item) => PermitChecked(s, s', rid, item);
    case ReadStep(_, item) => ReadChecked(s, s', rid, item);
    case PrepareStep(_, stamp) => PrepareChecked(s, s', rid, stamp);
    case _ =>
      TokensGrow(s, s');
      LaterSteps(s, s', rid, step);
      LaterChecked(s, s', rid);
  }

  lemma StepKeepsOneChecked(s: State, s': State, step: Step, rid: nat)
    requires HistoryOk(s) && HistoryOk(s') && RefinesAtomic(s, s') && NextBy(CAREFUL, s, s', step)
    requires rid in s.procs && RequestChecked(s, rid)
    ensures rid in s'.procs && RequestChecked(s', rid)
  {
    NextKeepsRequests(CAREFUL, s, s', step);
    if !step.GetStep? && step.rid == rid {
      NotStarting(s, s', step);
      MoverStaysChecked(s, s', rid, step);
    } else {
      NonMoverStays(s, s', rid, step);
      OtherStaysChecked(s, s', rid);
    }
  }

  lemma NotStarting(s: State, s': State, step: Step)
    requires NextBy(CAREFUL, s, s', step)
    ensures step.StartStep? ==> step.rid !in s.procs
  {
  }

  lemma NewIsStarted(s: State, s': State, step: Step, rid: nat)
    requires NextBy(CAREFUL, s, s', step)
    requires rid in s'.procs && rid !in s.procs
    ensures step.StartStep? && step.rid == rid
  {
    hide Stored, Build, DeleteRecord, RecordOf, WellFormed, Checks, CheckedRead;
  }

  lemma StartedIsChecked(s: State, s': State, rid: nat, req: Request)
    requires s.published <= Tokens(s.commits) && Start(CAREFUL, s, s', rid, req)
    ensures RequestChecked(s', rid)
  {
  }

  lemma StepKeepsChecked(s: State, s': State, step: Step)
    requires Inv(s) && Inv(s') && AllChecked(s) && NextBy(CAREFUL, s, s', step)
    ensures AllChecked(s')
  {
    NextRefines(CAREFUL, s, s', step);
    forall rid | rid in s'.procs ensures RequestChecked(s', rid) {
      if rid in s.procs {
        StepKeepsOneChecked(s, s', step, rid);
      } else {
        NewIsStarted(s, s', step, rid);
        StartedIsChecked(s, s', rid, step.req);
      }
    }
  }

  lemma NonMoverStays(s: State, s': State, rid: nat, step: Step)
    requires NextBy(CAREFUL, s, s', step) && rid in s.procs
    requires step.GetStep? || step.rid != rid
    ensures rid in s'.procs && s'.procs[rid] == s.procs[rid]
  {
    hide Stored, Build, DeleteRecord, RecordOf, WellFormed, Checks, CheckedRead;
  }

  lemma StepChecked(run: seq<State>, n: nat)
    requires IsRun(CAREFUL, run) && n + 1 < |run| && AllChecked(run[n])
    ensures AllChecked(run[n + 1])
  {
    RunKeeps(CAREFUL, run, n);
    RunKeeps(CAREFUL, run, n + 1);
    var s, s' := run[n], run[n + 1];
    assert Steps(CAREFUL, run, n);
    var step :| NextBy(CAREFUL, s, s', step);
    StepKeepsChecked(s, s', step);
  }

  lemma {:induction false} RunChecked(run: seq<State>, n: nat)
    requires IsRun(CAREFUL, run) && n < |run|
    ensures AllChecked(run[n])
  {
    if n > 0 {
      RunChecked(run, n - 1);
      StepChecked(run, n - 1);
    }
  }

  // ---- The theorem ----------------------------------------------------------------------------

  /** The prepared version, once the condition of its write holds. */
  lemma PreparedKeepsVisibility(s: State, rid: nat)
    requires Inv(s) && rid in s.procs && s.procs[rid].pc.Prepared? && RequestChecked(s, rid)
    requires "admin" !in s.procs[rid].req.roles
    requires var req, pc := s.procs[rid].req, s.procs[rid].pc;
      if req.op.Create? then TargetKey(req, pc.stamp) !in s.table
      else ConditionHolds(s.table, ItemKey(req), req.op.ifMatch)
    ensures var req, pc := s.procs[rid].req, s.procs[rid].pc;
      pc.updated.visibility ==
        if req.op.Create? then DEFAULT_VISIBILITY else s.table[ItemKey(req)].visibility
  {
    hide ProcsOk, OwnersOk, LogOk, TokensApart, Stored, WellFormed, Serial, Ordered, FreshTokens;
    PreparedIsAtomic(s, rid);
    var req, pc := s.procs[rid].req, s.procs[rid].pc;
    if !req.op.Create? {
      TableIsSound(s.commits);
      EditorKeepsVisibility(Lookup(s.table, ItemKey(req)), req, pc.stamp);
    }
  }

  lemma CommitKeepsVisibility(s: State, s': State, rid: nat)
    requires Inv(s) && rid in s.procs && RequestChecked(s, rid) && Write(s, s', rid) && s'.commits != s.commits
    requires "admin" !in s.procs[rid].req.roles
    ensures s'.commits != [] && KeepsVisibility(s, s', Final(s'.commits))
  {
    WriteIsAtomic(s, s', rid);
    WriteCommits(s, s', rid);
    PreparedKeepsVisibility(s, rid);
    StoredKeeps(Final(s'.commits).response);
  }

  ghost predicate KeepsVisibility(s: State, s': State, c: Commit) {
    && (c.req.op.Create? ==> c.after.visibility == "public")
    && (!c.req.op.Create? ==> CommitKey(c) in s.table && c.after.visibility == s.table[CommitKey(c)].visibility)
  }

  lemma NextKeepsVisibility(s: State, s': State, step: Step)
    requires Inv(s) && AllChecked(s) && NextBy(CAREFUL, s, s', step) && s'.commits != s.commits
    ensures s'.commits != [] && AtomicStep(s, s', Final(s'.commits))
    ensures "admin" !in Final(s'.commits).req.roles ==> KeepsVisibility(s, s', Final(s'.commits))
  {
    hide AtomicWrite, Stored, WellFormed, HistoryOk, ProcsOk, OwnersOk, LogOk, TokensApart, KeepsVisibility;
    hide Checks, CheckedRead;
    assert step.WriteStep?;
    WriteIsAtomic(s, s', step.rid);
    assert RequestChecked(s, step.rid);
    if "admin" !in s.procs[step.rid].req.roles {
      CommitKeepsVisibility(s, s', step.rid);
    }
  }

  /** However admins and others interleave, a commit whose caller is not an admin
      leaves the visibility it found, or creates a public feature. */
  lemma EditorCommitKeepsVisibility(run: seq<State>, n: nat)
    requires IsRun(CAREFUL, run) && n + 1 < |run| && run[n + 1].commits != run[n].commits
    ensures run[n + 1].commits != [] && AtomicStep(run[n], run[n + 1], Final(run[n + 1].commits))
    ensures "admin" !in Final(run[n + 1].commits).req.roles ==>
      KeepsVisibility(run[n], run[n + 1], Final(run[n + 1].commits))
  {
    RunKeeps(CAREFUL, run, n);
    RunChecked(run, n);
    assert Steps(CAREFUL, run, n);
    var step :| NextBy(CAREFUL, run[n], run[n + 1], step);
    NextKeepsVisibility(run[n], run[n + 1], step);
  }

  /** None of the commits from the given place on is an admin's. */
  ghost predicate NoAdminFrom(cs: seq<Commit>, from: nat) {
    forall i | from <= i < |cs| :: "admin" !in cs[i].req.roles
  }

  /** Over any stretch of a run in which every commit comes from callers who are
      not admins, no existing feature changes its visibility. */
  lemma {:induction false} EditorsNeverChangeVisibility(run: seq<State>, m: nat, n: nat, k: Key)
    requires IsRun(CAREFUL, run) && m <= n < |run|
    requires k in run[m].table
    requires NoAdminFrom(run[n].commits, |run[m].commits|)
    ensures k in run[n].table && run[n].table[k].visibility == run[m].table[k].visibility
  {
    if m < n {
      NoAdminBefore(run, m, n);
      EditorsNeverChangeVisibility(run, m, n - 1, k);
      VisibilityStays(run, n - 1, |run[m].commits|, k);
    }
  }

  lemma NoAdminBefore(run: seq<State>, m: nat, n: nat)
    requires IsRun(CAREFUL, run) && m < n < |run|
    requires NoAdminFrom(run[n].commits, |run[m].commits|)
    ensures NoAdminFrom(run[n - 1].commits, |run[m].commits|)
    ensures |run[m].commits| <= |run[n - 1].commits| <= |run[n].commits|
  {
    CommitsGrow(CAREFUL, run, n - 1, n);
    CommitsGrow(CAREFUL, run, m, n - 1);
  }

  lemma VisibilityStays(run: seq<State>, n: nat, from: nat, k: Key)
    requires IsRun(CAREFUL, run) && n + 1 < |run| && k in run[n].table
    requires from <= |run[n].commits| && NoAdminFrom(run[n + 1].commits, from)
    ensures k in run[n + 1].table && run[n + 1].table[k].visibility == run[n].table[k].visibility
  {
    StepRefinesAtomic(CAREFUL, run, n);
    if run[n + 1].commits != run[n].commits {
      EditorCommitKeepsVisibility(run, n);
    }
  }
}
