/** Requests that end in a refusal have a place in the serial order too, when reads are
    consistent: the atomic write would have refused them at some moment between their
    start and their end. */
module Refusals {
  import opened Json
  import opened Features
  import opened Writes
  import opened Protocol
  import opened History
  import opened ProtocolInvariant

  /** The atomic write answers the error on the items now stored. */
  ghost predicate Refuses(s: State, req: Request, e: Error)
    requires WellFormed(req)
  {
    exists stamp :: AtomicWrite(Lookup(s.table, TargetKey(req, stamp)), req, stamp) == Err(e)
  }

  /** The conditional write tells a deleted item from one with another ETag no more:
      it answers a mismatch where the atomic write finds nothing. */
  ghost predicate LostToDelete(s: State, req: Request, e: Error)
    requires WellFormed(req)
  {
    && e == ETagMismatch && !req.op.Create?
    && ItemKey(req) in s.table && s.table[ItemKey(req)].deleted
    && Refuses(s, req, NotFound)
  }

  /** While the request is in flight, the atomic write would refuse it like this. */
  ghost predicate RefusedIn(s: State, rid: nat, req: Request, e: Error) {
    && rid in s.procs && s.procs[rid].req == req && InFlight(s.procs[rid].pc)
    && WellFormed(req) && (Refuses(s, req, e) || LostToDelete(s, req, e))
  }

  ghost predicate SeenIn(s: State, rid: nat, req: Request, current: Feature) {
    && rid in s.procs && s.procs[rid].req == req && InFlight(s.procs[rid].pc)
    && !req.op.Create? && Lookup(s.table, ItemKey(req)) == Some(current)
  }

  /** What a refused request was told, some state explains; so does one what it read. */
  ghost predicate Explained(run: seq<State>, n: nat, rid: nat)
    requires n < |run| && rid in run[n].procs
  {
    var p := run[n].procs[rid];
    match p.pc
    case Read(current) => exists m | 0 <= m <= n :: SeenIn(run[m], rid, p.req, current)
    case Failed(e) => e == Forbidden || exists m | 0 <= m <= n :: RefusedIn(run[m], rid, p.req, e)
    case _ => true
  }

  // ---- One step -------------------------------------------------------------------------------------

  lemma PermitRefuses(cfg: Config, s: State, s': State, rid: nat, item: Option<Feature>, e: Error)
    requires cfg.consistent && Permit(cfg, s, s', rid, item) && s'.procs[rid].pc == Failed(e) && e != Forbidden
    ensures RefusedIn(s, rid, s.procs[rid].req, e)
  {
    hide Stored, Next;
    var req, stamp := s.procs[rid].req, Stamp(0, "", "");
    assert AtomicWrite(Lookup(s.table, TargetKey(req, stamp)), req, stamp) == Err(e);
  }

  lemma ReadRefuses(cfg: Config, s: State, s': State, rid: nat, item: Option<Feature>, e: Error)
    requires cfg.consistent && ReadItem(cfg, s, s', rid, item) && WellFormed(s.procs[rid].req)
    requires s'.procs[rid].pc == Failed(e)
    ensures RefusedIn(s, rid, s.procs[rid].req, e)
  {
    hide Stored, Next;
    var req, stamp := s.procs[rid].req, Stamp(0, "", "");
    assert AtomicWrite(Lookup(s.table, TargetKey(req, stamp)), req, stamp) == Err(e);
  }

  /** The organization is compared on the version read, not on the current one. */
  lemma PrepareRefuses(s: State, s': State, rid: nat, stamp: Stamp, e: Error, seen: State)
    requires Inv(s) && Prepare(s, s', rid, stamp) && s'.procs[rid].pc == Failed(e)
    requires s.procs[rid].pc.Read? ==> SeenIn(seen, rid, s.procs[rid].req, s.procs[rid].pc.current)
    ensures RefusedIn(seen, rid, s.procs[rid].req, e)
  {
    hide Stored, Replacement, Patched, HistoryOk, OwnersOk, LogOk, TokensApart;
    var req := s.procs[rid].req;
    assert ProcOk(s, rid, req, s.procs[rid].pc);
    assert AtomicWrite(Lookup(seen.table, TargetKey(req, stamp)), req, stamp) == Err(e);
  }

  lemma FailedWriteHow(s: State, s': State, rid: nat, e: Error)
    requires Write(s, s', rid) && rid in s'.procs && s'.procs[rid].pc == Failed(e)
    ensures rid in s.procs && s.procs[rid].pc.Prepared? && WellFormed(s.procs[rid].req)
    ensures var req, stamp := s.procs[rid].req, s.procs[rid].pc.stamp;
      if req.op.Create? then TargetKey(req, stamp) in s.table && e == AlreadyExists
      else !ConditionHolds(s.table, ItemKey(req), req.op.ifMatch) && e == ETagMismatch
  {
    hide Stored, WellFormed, RecordOf, DeleteRecord;
  }

  lemma AtomicRefusal(t: Table, req: Request, stamp: Stamp)
    requires WellFormed(req) && TargetKey(req, stamp) in t
    requires !req.op.Create? ==> !ConditionHolds(t, ItemKey(req), req.op.ifMatch)
    ensures AtomicWrite(Lookup(t, TargetKey(req, stamp)), req, stamp)
      == Err(if req.op.Create? then AlreadyExists else if t[ItemKey(req)].deleted then NotFound else ETagMismatch)
  {
    hide Next;
  }

  lemma FailedConditionRefuses(s: State, req: Request, stamp: Stamp)
    requires WellFormed(req) && TargetKey(req, stamp) in s.table
    requires !req.op.Create? ==> !ConditionHolds(s.table, ItemKey(req), req.op.ifMatch)
    ensures var e := if req.op.Create? then AlreadyExists else ETagMismatch;
      Refuses(s, req, e) || LostToDelete(s, req, e)
  {
    hide WellFormed, AtomicWrite, ConditionHolds;
    AtomicRefusal(s.table, req, stamp);
  }

  lemma WriteRefuses(s: State, s': State, rid: nat, e: Error)
    requires Inv(s) && Write(s, s', rid) && rid in s'.procs && s'.procs[rid].pc == Failed(e)
    ensures rid in s.procs && RefusedIn(s, rid, s.procs[rid].req, e)
  {
    hide Inv, WellFormed, AtomicWrite, Write, ConditionHolds, Refuses, LostToDelete, TargetKey, ItemKey;
    FailedWriteHow(s, s', rid, e);
    TargetIsThere(s, rid);
    FailedConditionRefuses(s, s.procs[rid].req, s.procs[rid].pc.stamp);
  }

  lemma TargetIsThere(s: State, rid: nat)
    requires Inv(s) && rid in s.procs && s.procs[rid].pc.Prepared?
    ensures !s.procs[rid].req.op.Create? ==> TargetKey(s.procs[rid].req, s.procs[rid].pc.stamp) in s.table
  {
    hide Stored, Serial, Ordered, FreshTokens, OwnersOk, LogOk, TokensApart, Replay, AtomicWrite, Build;
    var req := s.procs[rid].req;
    assert ProcOk(s, rid, req, s.procs[rid].pc);
    if !req.op.Create? {
      ReadItemIsThere(s, ItemKey(req), s.procs[rid].pc.base.value);
    }
  }

  lemma ReadItemIsThere(s: State, k: Key, f: Feature)
    requires HistoryOk(s) && LiveVersion(s.commits, k, f)
    ensures k in s.table
  {
    var i :| 0 <= i < |s.commits| && CommitKey(s.commits[i]) == k && s.commits[i].after == f;
    TableIsNewer(s.commits, i);
  }

  // ---- Every run ------------------------------------------------------------------------------------

  /** What a step can newly leave behind. */
  lemma StepExplains(cfg: Config, s: State, s': State, step: Step, rid: nat)
    requires NextBy(cfg, s, s', step) && rid in s'.procs
    requires s'.procs[rid].pc.Failed? || s'.procs[rid].pc.Read?
    ensures rid in s.procs && s.procs[rid].req == s'.procs[rid].req
    ensures s.procs[rid].pc == s'.procs[rid].pc
      || (step.PermitStep? && step.rid == rid && s'.procs[rid].pc.Failed?)
      || (step.ReadStep? && step.rid == rid)
      || (step.PrepareStep? && step.rid == rid && s'.procs[rid].pc.Failed?)
      || (step.WriteStep? && step.rid == rid && s'.procs[rid].pc.Failed?)
  {
    hide Stored, Build, DeleteRecord, RecordOf, WellFormed, CheckedRead, Visible;
    hide MayRead, ConditionHolds, TargetKey, ItemKey, ChangeKeyOf, Lookup;
  }

  lemma ReadSees(cfg: Config, s: State, s': State, rid: nat, item: Option<Feature>, current: Feature)
    requires cfg.consistent && ReadItem(cfg, s, s', rid, item) && s'.procs[rid].pc == Read(current)
    ensures SeenIn(s, rid, s.procs[rid].req, current)
  {
    hide Stored;
  }

  lemma OneMoreExplained(cfg: Config, run: seq<State>, n: nat, rid: nat)
    requires cfg.consistent && IsRun(cfg, run) && n + 1 < |run| && rid in run[n + 1].procs
    requires rid in run[n].procs ==> Explained(run, n, rid)
    ensures Explained(run, n + 1, rid)
  {
    hide RefusedIn, SeenIn, Permit, ReadItem, Prepare, Write, IsRun, Inv;
    var s, s' := run[n], run[n + 1];
    RunKeeps(cfg, run, n);
    var step := StepOf(cfg, run, n);
    var pc := s'.procs[rid].pc;
    if pc.Failed? || pc.Read? {
      StepExplains(cfg, s, s', step, rid);
      var req := s.procs[rid].req;
      if s.procs[rid].pc != pc {
        match step
        case PermitStep(_, item) =>
          if pc.error != Forbidden {
            PermitRefuses(cfg, s, s', rid, item, pc.error);
          }
        case ReadStep(_, item) =>
          RequestIsWellFormed(s, rid);
          if pc.Failed? {
            ReadRefuses(cfg, s, s', rid, item, pc.error);
          } else {
            ReadSees(cfg, s, s', rid, item, pc.current);
          }
        case PrepareStep(_, stamp) =>
          if s.procs[rid].pc.Read? {
            var m :| 0 <= m <= n && SeenIn(run[m], rid, req, s.procs[rid].pc.current);
            PrepareRefuses(s, s', rid, stamp, pc.error, run[m]);
          } else {
            PrepareRefuses(s, s', rid, stamp, pc.error, s);
          }
        case WriteStep(_) => WriteRefuses(s, s', rid, pc.error);
        case _ =>
      }
    }
  }

  lemma StepOf(cfg: Config, run: seq<State>, n: nat) returns (step: Step)
    requires IsRun(cfg, run) && n + 1 < |run|
    ensures NextBy(cfg, run[n], run[n + 1], step)
  {
    assert Steps(cfg, run, n);
    step :| NextBy(cfg, run[n], run[n + 1], step);
  }

  lemma RequestIsWellFormed(s: State, rid: nat)
    requires Inv(s) && rid in s.procs
    ensures WellFormed(s.procs[rid].req)
  {
    assert ProcOk(s, rid, s.procs[rid].req, s.procs[rid].pc);
  }

  lemma {:induction false} RunExplains(cfg: Config, run: seq<State>, n: nat, rid: nat)
    requires cfg.consistent && IsRun(cfg, run) && n < |run| && rid in run[n].procs
    ensures Explained(run, n, rid)
  {
    hide Explained;
    if n > 0 {
      if rid in run[n - 1].procs {
        RunExplains(cfg, run, n - 1, rid);
      }
      OneMoreExplained(cfg, run, n - 1, rid);
    }
  }

  /** With consistent reads each 404, 412 or immutable organization that a request is
      refused with is the atomic write's answer in some state in which the request was
      in flight, save that a conditional write that loses to a delete is told 412. */
  lemma RefusalIsAtomic(cfg: Config, run: seq<State>, n: nat, rid: nat)
    requires cfg.consistent && IsRun(cfg, run) && n < |run| && rid in run[n].procs
    requires run[n].procs[rid].pc.Failed? && run[n].procs[rid].pc.error != Forbidden
    ensures exists m | 0 <= m <= n :: RefusedIn(run[m], rid, run[n].procs[rid].req, run[n].procs[rid].pc.error)
  {
    RunExplains(cfg, run, n, rid);
  }
}
