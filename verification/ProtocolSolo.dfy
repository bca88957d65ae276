/** A request that no other one disturbs: the step machine can carry it out, and
    then does exactly what the uninterrupted call of the data access layer does. */
module ProtocolSolo {
  import opened Json
  import opened Features
  import opened Writes
  import opened Protocol
  import opened History
  import opened ProtocolInvariant

  /** One step after the other. */
  ghost predicate IsPath(cfg: Config, path: seq<State>) {
    path != [] && forall i | 0 <= i < |path| - 1 :: Steps(cfg, path, i)
  }

  lemma PathExtends(cfg: Config, path: seq<State>, s': State, step: Step)
    requires IsPath(cfg, path) && NextBy(cfg, path[|path| - 1], s', step)
    ensures IsPath(cfg, path + [s'])
  {
    var longer := path + [s'];
    forall i | 0 <= i < |longer| - 1 ensures Steps(cfg, longer, i) {
      if i < |path| - 1 {
        assert Steps(cfg, path, i);
        assert longer[i] == path[i] && longer[i + 1] == path[i + 1];
      }
    }
  }

  // ---- The handler's checks, written out ------------------------------------------------------

  /** The properties of the body name the member. */
  predicate NamesMember(body: Value, member: string) {
    && body.Dict? && "properties" in body.entries && body.entries["properties"].Dict?
    && member in body.entries["properties"].entries
  }

  /** Who may go on to the write: editors and admins; editors as long as a POST or
      PATCH names no visibility, and a PUT none but that of the live item. */
  ghost predicate Permits(req: Request, item: Option<Feature>) {
    && ("editor" in req.roles || "admin" in req.roles)
    && match req.op
       case Create(body) => "admin" in req.roles || !NamesMember(body, "visibility")
       case Update(_, patch, _) => "admin" in req.roles || !NamesMember(patch, "visibility")
       case Replace(_, body, _) =>
         && item.Some? && !item.value.deleted
         && ("admin" in req.roles || !NamesMember(body, "visibility")
             || body.entries["properties"].entries["visibility"] == Str(item.value.visibility))
       case Delete(_, _) => true
  }

  /** The checks pass on these conditions and no others; a PUT of an item that is not
      there is not found, and every other refusal is for want of permission. */
  lemma ChecksMean(req: Request, item: Option<Feature>)
    requires WellFormed(req)
    ensures Checks(req, item) == Permitted <==>
      && ("editor" in req.roles || "admin" in req.roles)
      && match req.op
         case Create(body) =>
           "admin" in req.roles || !("properties" in body.entries && body.entries["properties"].Dict?
                                     && "visibility" in body.entries["properties"].entries)
         case Update(_, patch, _) =>
           "admin" in req.roles || !("properties" in patch.entries && patch.entries["properties"].Dict?
                                     && "visibility" in patch.entries["properties"].entries)
         case Replace(_, body, _) =>
           && item.Some? && !item.value.deleted
           && ("admin" in req.roles
               || ("properties" in body.entries && body.entries["properties"].Dict?
                   && "visibility" in body.entries["properties"].entries ==>
                     body.entries["properties"].entries["visibility"] == Str(item.value.visibility)))
         case Delete(_, _) => true
    ensures Checks(req, item) == Permitted <==> Permits(req, item)
    ensures Checks(req, item) == Failed(NotFound) <==>
      && ("editor" in req.roles || "admin" in req.roles)
      && req.op.Replace? && (item.None? || item.value.deleted)
    ensures Checks(req, item) in {Permitted, Failed(NotFound), Failed(Forbidden)}
  {
  }

  /** The request can begin, and the instant and ETag it is going to draw are new. */
  ghost predicate CanBegin(cfg: Config, s: State, rid: nat, req: Request, stamp: Stamp) {
    && rid !in s.procs && WellFormed(req)
    && (cfg.honest && !req.op.Create? ==> req.op.ifMatch in s.published)
    && s.clock < stamp.now && stamp.etag !in s.issued
  }

  /** The request can begin, its caller may ask for it, and it succeeds on the item now stored. */
  ghost predicate CanSucceed(cfg: Config, s: State, rid: nat, req: Request, stamp: Stamp) {
    && CanBegin(cfg, s, rid, req, stamp)
    && Permits(req, Lookup(s.table, TargetKey(req, stamp)))
    && AtomicWrite(Lookup(s.table, TargetKey(req, stamp)), req, stamp).Ok?
  }

  /** The first two steps of a request. */
  lemma SoloChecks(cfg: Config, s: State, rid: nat, req: Request, stamp: Stamp) returns (path: seq<State>)
    requires CanBegin(cfg, s, rid, req, stamp)
    ensures IsPath(cfg, path) && path != [] && path[0] == s
    ensures var item := Lookup(s.table, TargetKey(req, stamp));
      path[|path| - 1] == s.(procs := s.procs[rid := Proc(req, Checks(req, item))])
  {
    hide Stored, WellFormed, Checks, IsPath;
    var item := Lookup(s.table, TargetKey(req, stamp));
    var started := s.(procs := s.procs[rid := Proc(req, Started)]);
    var checked := started.(procs := At(started, rid, Checks(req, item)));
    path := Alone(cfg, s);
    PathExtends(cfg, path, started, StartStep(rid, req));
    path := path + [started];
    PathExtends(cfg, path, checked, PermitStep(rid, item));
    path := path + [checked];
  }

  /** Through the checks and the read. */
  lemma SoloReads(cfg: Config, s: State, rid: nat, req: Request, stamp: Stamp) returns (path: seq<State>)
    requires CanSucceed(cfg, s, rid, req, stamp)
    ensures IsPath(cfg, path) && path != [] && path[0] == s
    ensures var item := Lookup(s.table, TargetKey(req, stamp));
      && (req.op.Create? || item.Some?)
      && var pc := if req.op.Create? then Permitted else Read(item.value);
      path[|path| - 1] == s.(procs := s.procs[rid := Proc(req, pc)])
  {
    hide Stored, WellFormed, Next, NewFeature, Checks, IsPath, Permits;
    var item := Lookup(s.table, TargetKey(req, stamp));
    ChecksMean(req, item);
    path := SoloChecks(cfg, s, rid, req, stamp);
    var permitted := path[|path| - 1];
    if !req.op.Create? {
      var read := permitted.(procs := At(permitted, rid, Read(item.value)));
      PathExtends(cfg, path, read, ReadStep(rid, item));
      path := path + [read];
    }
  }

  lemma Alone(cfg: Config, s: State) returns (path: seq<State>)
    ensures IsPath(cfg, path) && path == [s]
  {
    path := [s];
  }

  /** Up to the point where the new version is built. */
  lemma SoloPrepares(cfg: Config, s: State, rid: nat, req: Request, stamp: Stamp) returns (path: seq<State>)
    requires CanSucceed(cfg, s, rid, req, stamp)
    ensures IsPath(cfg, path) && path != [] && path[0] == s
    ensures var item := Lookup(s.table, TargetKey(req, stamp));
      var base, f := if req.op.Create? then None else item, AtomicWrite(item, req, stamp).value;
      path[|path| - 1] == s.(procs := s.procs[rid := Proc(req, Prepared(base, stamp, f))],
                             clock := stamp.now, issued := s.issued + {stamp.etag})
  {
    hide Stored, WellFormed, Next, NewFeature, Checks, IsPath;
    var item := Lookup(s.table, TargetKey(req, stamp));
    path := SoloReads(cfg, s, rid, req, stamp);
    var ready := path[|path| - 1];
    var prepared := ready.(
      procs := At(ready, rid, Prepared(BaseOf(ready.procs[rid].pc), stamp, AtomicWrite(item, req, stamp).value)),
      clock := stamp.now, issued := ready.issued + {stamp.etag});
    PathExtends(cfg, path, prepared, PrepareStep(rid, stamp));
    path := path + [prepared];
  }

  /** The state in which an undisturbed request leaves everything. */
  ghost function SoloEnd(s: State, rid: nat, req: Request, stamp: Stamp): State
    requires WellFormed(req) && AtomicWrite(Lookup(s.table, TargetKey(req, stamp)), req, stamp).Ok?
  {
    var key := TargetKey(req, stamp);
    var f := AtomicWrite(Lookup(s.table, key), req, stamp).value;
    var record := RecordFor(req, stamp, f);
    State(s.table[key := Stored(f)], s.changes[ChangeKeyOf(record) := record], s.procs[rid := Proc(req, Done(f))],
          stamp.now, s.issued + {stamp.etag}, s.published + {f.etag},
          s.commits + [Commit(rid, req, stamp, f, Stored(f))])
  }

  /** From any reachable state a request that succeeds as an atomic write can run to
      its end, and then the tables and the answer are those of the atomic write. */
  lemma SoloWrite(cfg: Config, s: State, rid: nat, req: Request, stamp: Stamp) returns (path: seq<State>)
    requires Inv(s) && CanSucceed(cfg, s, rid, req, stamp)
    ensures IsPath(cfg, path) && path != [] && path[0] == s
    ensures path[|path| - 1] == SoloEnd(s, rid, req, stamp)
  {
    hide Stored, WellFormed, AtomicWrite, RecordFor, Checks, Write, Inv;
    var key := TargetKey(req, stamp);
    var item := Lookup(s.table, key);
    var f := AtomicWrite(item, req, stamp).value;
    path := SoloPrepares(cfg, s, rid, req, stamp);
    var prepared := path[|path| - 1];
    var record := RecordFor(req, stamp, f);
    var written := prepared.(
      table := s.table[key := Stored(f)],
      procs := At(prepared, rid, Written(record, f)),
      commits := s.commits + [Commit(rid, req, stamp, f, Stored(f))]);
    SoloCommits(s, prepared, written, rid, req, stamp);
    PathExtends(cfg, path, written, WriteStep(rid));
    path := path + [written];
    var done := written.(
      changes := s.changes[ChangeKeyOf(record) := record],
      procs := At(written, rid, Done(f)),
      published := s.published + {f.etag});
    PathExtends(cfg, path, done, LogStep(rid));
    path := path + [done];
  }

  lemma SoloCommits(s: State, prepared: State, written: State, rid: nat, req: Request, stamp: Stamp)
    requires Inv(s) && WellFormed(req)
    requires var item := Lookup(s.table, TargetKey(req, stamp));
      && AtomicWrite(item, req, stamp).Ok?
      && var f := AtomicWrite(item, req, stamp).value;
      && prepared == s.(procs := s.procs[rid := Proc(req, Prepared(if req.op.Create? then None else item, stamp, f))],
                        clock := stamp.now, issued := s.issued + {stamp.etag})
      && written == prepared.(table := s.table[TargetKey(req, stamp) := Stored(f)],
                              procs := At(prepared, rid, Written(RecordFor(req, stamp, f), f)),
                              commits := s.commits + [Commit(rid, req, stamp, f, Stored(f))])
    ensures Write(prepared, written, rid)
  {
    hide Stored, RecordFor, DeleteRecord, RecordOf, ProcsOk, OwnersOk, LogOk, TokensApart;
    var item := Lookup(s.table, TargetKey(req, stamp));
    TableIsSound(s.commits);
    RecordShowsStored(item, req, stamp);
    if req.op.Delete? {
      WriteIsSound(item, req, stamp);
    }
  }

  // ---- Requests that do not succeed ----------------------------------------------------------------

  /** The answer to an undisturbed request: the check's refusal, or what the atomic
      write says. */
  ghost function SoloRefusal(item: Option<Feature>, req: Request, stamp: Stamp): Option<Error>
    requires WellFormed(req)
  {
    if !("editor" in req.roles || "admin" in req.roles) then Some(Forbidden)
    else if req.op.Replace? && (item.None? || item.value.deleted) then Some(NotFound)
    else if !Permits(req, item) then Some(Forbidden)
    else match AtomicWrite(item, req, stamp)
      case Ok(_) => None
      case Err(e) => Some(e)
  }

  lemma RefusedAtRead(item: Option<Feature>, req: Request, stamp: Stamp)
    requires WellFormed(req) && AtomicWrite(item, req, stamp).Err?
    ensures var e := AtomicWrite(item, req, stamp).error;
      if req.op.Create? then item.Some? && e == AlreadyExists
      else if CheckedRead(item, req.op.ifMatch).Err? then CheckedRead(item, req.op.ifMatch) == Err(e)
      else
        && item.Some? && CheckedRead(item, req.op.ifMatch) == Ok(item.value)
        && Build(req, item, stamp) == Err(e)
  {
  }

  lemma SoloFails(cfg: Config, path: seq<State>, rid: nat, req: Request, stamp: Stamp, e: Error)
    returns (longer: seq<State>)
    requires path != [] && IsPath(cfg, path) && WellFormed(req)
    requires var s := path[|path| - 1];
      && rid in s.procs && s.procs[rid] == Proc(req, Permitted)
      && s.clock < stamp.now && stamp.etag !in s.issued
      && AtomicWrite(Lookup(s.table, TargetKey(req, stamp)), req, stamp) == Err(e)
    ensures longer != [] && IsPath(cfg, longer) && longer[0] == path[0]
    ensures var s, s' := path[|path| - 1], longer[|longer| - 1];
      && rid in s'.procs && s'.procs[rid] == Proc(req, Failed(e))
      && s'.table == s.table && s'.changes == s.changes && s'.commits == s.commits
  {
    hide Stored, WellFormed, AtomicWrite, IsPath, CheckedRead, Next;
    var s := path[|path| - 1];
    var item := Lookup(s.table, TargetKey(req, stamp));
    RefusedAtRead(item, req, stamp);
    longer := path;
    if req.op.Create? {
      var f := Build(req, None, stamp).value;
      var prepared := s.(procs := At(s, rid, Prepared(None, stamp, f)), clock := stamp.now,
                         issued := s.issued + {stamp.etag});
      PathExtends(cfg, longer, prepared, PrepareStep(rid, stamp));
      longer := longer + [prepared];
      var failed := prepared.(procs := At(prepared, rid, Failed(e)));
      PathExtends(cfg, longer, failed, WriteStep(rid));
      longer := longer + [failed];
    } else if CheckedRead(item, req.op.ifMatch).Err? {
      var failed := s.(procs := At(s, rid, Failed(e)));
      PathExtends(cfg, longer, failed, ReadStep(rid, item));
      longer := longer + [failed];
    } else {
      var read := s.(procs := At(s, rid, Read(item.value)));
      PathExtends(cfg, longer, read, ReadStep(rid, item));
      longer := longer + [read];
      var failed := read.(procs := At(read, rid, Failed(e)));
      PathExtends(cfg, longer, failed, PrepareStep(rid, stamp));
      longer := longer + [failed];
    }
  }

  /** A request that is not permitted, or that the atomic write refuses, runs to that
      very refusal undisturbed, and leaves both tables as they were. */
  lemma SoloRefused(cfg: Config, s: State, rid: nat, req: Request, stamp: Stamp) returns (path: seq<State>)
    requires CanBegin(cfg, s, rid, req, stamp)
    requires SoloRefusal(Lookup(s.table, TargetKey(req, stamp)), req, stamp).Some?
    ensures IsPath(cfg, path) && path != [] && path[0] == s
    ensures var s' := path[|path| - 1];
      && rid in s'.procs
      && s'.procs[rid].pc == Failed(SoloRefusal(Lookup(s.table, TargetKey(req, stamp)), req, stamp).value)
      && s'.table == s.table && s'.changes == s.changes && s'.commits == s.commits
  {
    hide Stored, WellFormed, AtomicWrite, IsPath, Checks, Permits;
    var item := Lookup(s.table, TargetKey(req, stamp));
    ChecksMean(req, item);
    path := SoloChecks(cfg, s, rid, req, stamp);
    if Checks(req, item) == Permitted {
      path := SoloFails(cfg, path, rid, req, stamp, AtomicWrite(item, req, stamp).error);
    }
  }

  // ---- No request is ever stuck ----------------------------------------------------------------------

  lemma FreshRid(procs: set<nat>) returns (rid: nat)
    ensures forall p | p in procs :: p < rid
  {
    if procs == {} {
      rid := 0;
    } else {
      var one :| one in procs;
      var rest := FreshRid(procs - {one});
      rid := if one < rest then rest else one + 1;
      forall p | p in procs ensures p < rid {
        assert p == one || p in procs - {one};
      }
    }
  }

  lemma FreshToken(issued: set<string>) returns (etag: string)
    ensures forall e | e in issued :: |e| < |etag|
  {
    if issued == {} {
      etag := "";
    } else {
      var e :| e in issued;
      var rest := FreshToken(issued - {e});
      etag := if |e| < |rest| then rest else e + "+";
    }
  }

  /** Where the next step of a request leads, stopping aside. */
  ghost predicate GoesOn(from: Pc, to: Pc) {
    match from
    case Started => to.Permitted? || to.Failed?
    case Permitted => to.Read? || to.Prepared? || to.Failed?
    case Read(_) => to.Prepared? || to.Failed?
    case Prepared(_, _, _) => to.Written? || to.Failed?
    case Written(_, response) => to == Done(response)
    case _ => false
  }

  /** Wherever a request is before its end, it can take its next step, and it can stop
      there for good, which leaves both tables alone. */
  lemma NeverBlocked(cfg: Config, s: State, rid: nat) returns (step: Step, s': State, stopped: State)
    requires Inv(s) && rid in s.procs
    requires var pc := s.procs[rid].pc; pc.Started? || pc.Permitted? || pc.Read? || pc.Prepared? || pc.Written?
    ensures NextBy(cfg, s, s', step) && rid in s'.procs && GoesOn(s.procs[rid].pc, s'.procs[rid].pc)
    ensures NextBy(cfg, s, stopped, StopStep(rid))
    ensures rid in stopped.procs && stopped.procs[rid].pc == Stopped(s.procs[rid].pc)
    ensures stopped.table == s.table && stopped.changes == s.changes
  {
    hide Inv, WellFormed, Checks, CheckedRead, Stored, Next, NewFeature, RecordOf, DeleteRecord;
    stopped := s.(procs := At(s, rid, Stopped(s.procs[rid].pc)));
    var req, pc := s.procs[rid].req, s.procs[rid].pc;
    KnownOf(s, rid);
    match pc
    case Started =>
      var item := if req.op.Create? then None else Lookup(s.table, ItemKey(req));
      step, s' := PermitStep(rid, item), s.(procs := At(s, rid, Checks(req, item)));
      ChecksMean(req, item);
    case Permitted =>
      if req.op.Create? {
        step, s' := PrepareOf(cfg, s, rid);
      } else {
        var item := Lookup(s.table, ItemKey(req));
        var next := match CheckedRead(item, req.op.ifMatch) case Err(e) => Failed(e) case Ok(current) => Read(current);
        step, s' := ReadStep(rid, item), s.(procs := At(s, rid, next));
      }
    case Read(_) => step, s' := PrepareOf(cfg, s, rid);
    case Prepared(_, _, _) => step, s' := WriteOf(cfg, s, rid);
    case Written(record, response) =>
      step := LogStep(rid);
      s' := s.(changes := s.changes[ChangeKeyOf(record) := record],
               procs := At(s, rid, Done(response)),
               published := s.published + {response.etag});
  }

  lemma KnownOf(s: State, rid: nat)
    requires Inv(s) && rid in s.procs
    ensures WellFormed(s.procs[rid].req)
    ensures s.procs[rid].pc.Read? ==> !s.procs[rid].req.op.Create?
    ensures s.procs[rid].pc.Prepared? ==> (s.procs[rid].req.op.Create? <==> s.procs[rid].pc.base.None?)
  {
    assert ProcOk(s, rid, s.procs[rid].req, s.procs[rid].pc);
  }

  lemma PrepareOf(cfg: Config, s: State, rid: nat) returns (step: Step, s': State)
    requires rid in s.procs && WellFormed(s.procs[rid].req)
    requires var req, pc := s.procs[rid].req, s.procs[rid].pc; if req.op.Create? then pc.Permitted? else pc.Read?
    ensures NextBy(cfg, s, s', step) && rid in s'.procs && (s'.procs[rid].pc.Prepared? || s'.procs[rid].pc.Failed?)
  {
    hide WellFormed, Next, NewFeature, Build;
    var etag := FreshToken(s.issued);
    var stamp := Stamp(s.clock + 1, etag, "");
    var req, base := s.procs[rid].req, BaseOf(s.procs[rid].pc);
    step := PrepareStep(rid, stamp);
    match Build(req, base, stamp)
    case Err(e) => s' := s.(procs := At(s, rid, Failed(e)));
    case Ok(f) =>
      s' := s.(procs := At(s, rid, Prepared(base, stamp, f)), clock := stamp.now, issued := s.issued + {stamp.etag});
  }

  lemma WriteOf(cfg: Config, s: State, rid: nat) returns (step: Step, s': State)
    requires rid in s.procs && WellFormed(s.procs[rid].req) && s.procs[rid].pc.Prepared?
    requires s.procs[rid].req.op.Create? <==> s.procs[rid].pc.base.None?
    ensures NextBy(cfg, s, s', step) && rid in s'.procs && (s'.procs[rid].pc.Written? || s'.procs[rid].pc.Failed?)
  {
    hide WellFormed, Stored, RecordOf, DeleteRecord;
    var req, pc := s.procs[rid].req, s.procs[rid].pc;
    var key := TargetKey(req, pc.stamp);
    step := WriteStep(rid);
    if (if req.op.Create? then key in s.table else !ConditionHolds(s.table, key, req.op.ifMatch)) {
      s' := s.(procs := At(s, rid, Failed(if req.op.Create? then AlreadyExists else ETagMismatch)));
    } else {
      var after := if req.op.Delete? then s.table[key].(deleted := true, updatedAt := pc.stamp.now)
                   else Stored(pc.updated);
      var record := match req.op
        case Create(_) => RecordOf(pc.updated, "CREATE")
        case Replace(_, _, _) => RecordOf(pc.updated, "REPLACE")
        case Update(_, _, _) => RecordOf(pc.updated, "UPDATE")
        case Delete(_, _) => DeleteRecord(pc.base.value, req, pc.stamp);
      s' := s.(table := s.table[key := after],
               procs := At(s, rid, Written(record, pc.updated)),
               commits := s.commits + [Commit(rid, req, pc.stamp, pc.updated, after)]);
    }
  }
}
