/** The write protocol as a step machine: any number of requests in flight, each
    a sequence of separate reads and writes, interleaved in any order, any of
    them stopping for good at any step. */
module Protocol {
  import opened Json
  import opened Features
  import opened Auth
  import opened Writes

  // ---- State -----------------------------------------------------------------------------

  /** Where a request is. */
  datatype Pc =
    | Started                                                  // nothing done yet
    | Permitted                                                // the handler's checks have passed
    | Read(current: Feature)                                   // the item was read and its ETag compared
    | Prepared(base: Option<Feature>, stamp: Stamp, updated: Feature)  // the new version is built
    | Written(record: ChangeRecord, response: Feature)         // the table is written, the log is not
    | Done(response: Feature)
    | Failed(error: Error)
    | Stopped(at: Pc)                                          // ended early; it never steps again

  datatype Proc = Proc(req: Request, pc: Pc)

  /** One conditional write that succeeded, with the feature it answers and the
      item it leaves: history kept for the proof only. */
  datatype Commit = Commit(rid: nat, req: Request, stamp: Stamp, response: Feature, after: Feature)

  datatype State = State(
    table: Table,
    changes: map<ChangeKey, ChangeRecord>,
    procs: map<nat, Proc>,
    clock: Time,
    issued: set<string>,       // ETags drawn so far
    published: set<string>,    // ETags that some completed response has carried
    commits: seq<Commit>)

  /** `consistent`: reads see the current item. `honest`: a request's If-Match
      value was taken from a response completed before the request began. */
  datatype Config = Config(consistent: bool, honest: bool)

  predicate Init(s: State) {
    && s.table == map[] && s.changes == map[] && s.procs == map[]
    && s.issued == {} && s.published == {} && s.commits == []
  }

  function CommitKey(c: Commit): Key {
    TargetKey(c.req, c.stamp)
  }

  // ---- Steps -----------------------------------------------------------------------------

  /** What a read of `key` may return: the current item, or under eventual
      consistency also any earlier version of it or its absence. */
  ghost predicate MayRead(cfg: Config, s: State, key: Key, item: Option<Feature>) {
    || item == Lookup(s.table, key)
    || (!cfg.consistent &&
        (item == None ||
         exists i | 0 <= i < |s.commits| :: CommitKey(s.commits[i]) == key && item == Some(s.commits[i].after)))
  }

  function At(s: State, rid: nat, pc: Pc): map<nat, Proc>
    requires rid in s.procs
  {
    s.procs[rid := s.procs[rid].(pc := pc)]
  }

  ghost predicate Start(cfg: Config, s: State, s': State, rid: nat, req: Request) {
    && rid !in s.procs
    && WellFormed(req)
    && (cfg.honest && !req.op.Create? ==> req.op.ifMatch in s.published)
    && s' == s.(procs := s.procs[rid := Proc(req, Started)])
  }

  /** The key of the item a request other than a create is about. */
  function ItemKey(req: Request): Key
    requires !req.op.Create?
  {
    MakeKey(req.organization, req.collectionId, req.op.id)
  }

  /** The handler's checks. Only a PUT reads the feature for them. */
  ghost predicate Permit(cfg: Config, s: State, s': State, rid: nat, item: Option<Feature>) {
    && rid in s.procs && s.procs[rid].pc.Started? && WellFormed(s.procs[rid].req)
    && var req := s.procs[rid].req;
    && (req.op.Replace? ==> MayRead(cfg, s, ItemKey(req), item))
    && s' == s.(procs := At(s, rid, Checks(req, item)))
  }

  ghost function Checks(req: Request, item: Option<Feature>): Pc
    requires WellFormed(req)
  {
    if !MayWrite(req.roles) then Failed(Forbidden)
    else match req.op
      case Create(body) => if MayCreate(req.roles, body) then Permitted else Failed(Forbidden)
      case Update(_, patch, _) => if MayUpdate(req.roles, patch) then Permitted else Failed(Forbidden)
      case Delete(_, _) => Permitted
      case Replace(_, body, _) =>
        match Visible(item, {})
        case Err(e) => Failed(e)
        case Ok(existing) => if MayReplace(req.roles, body, existing.visibility) then Permitted else Failed(Forbidden)
  }

  /** The read inside the data access layer, with the ETag comparison. */
  ghost predicate ReadItem(cfg: Config, s: State, s': State, rid: nat, item: Option<Feature>) {
    && rid in s.procs && s.procs[rid].pc.Permitted? && !s.procs[rid].req.op.Create?
    && var req := s.procs[rid].req;
    && MayRead(cfg, s, ItemKey(req), item)
    && s' == s.(procs := At(s, rid, match CheckedRead(item, req.op.ifMatch)
                                    case Err(e) => Failed(e)
                                    case Ok(current) => Read(current)))
  }

  /** The new version, built from what was read and from nothing else. */
  function Build(req: Request, base: Option<Feature>, stamp: Stamp): Result<Feature, Error>
    requires WellFormed(req)
  {
    if req.op.Create? then
      Ok(NewFeature(req.organization, req.collectionId, req.op.body, DEFAULT_VISIBILITY, stamp))
    else if base.Some? then Next(base.value, req, stamp)
    else Err(NotFound)
  }

  function BaseOf(pc: Pc): Option<Feature> {
    if pc.Read? then Some(pc.current) else None
  }

  /** Take an instant and a fresh ETag, and build the new version. A delete draws
      no ETag in the code; here the one it draws goes unused. */
  ghost predicate Prepare(s: State, s': State, rid: nat, stamp: Stamp) {
    && rid in s.procs && WellFormed(s.procs[rid].req)
    && s.clock < stamp.now && stamp.etag !in s.issued
    && var req, pc := s.procs[rid].req, s.procs[rid].pc;
    && (if req.op.Create? then pc.Permitted? else pc.Read?)
    && match Build(req, BaseOf(pc), stamp)
       case Err(e) => s' == s.(procs := At(s, rid, Failed(e)))
       case Ok(updated) =>
         s' == s.(procs := At(s, rid, Prepared(BaseOf(pc), stamp, updated)),
                  clock := stamp.now,
                  issued := s.issued + {stamp.etag})
  }

  /** The conditional write: one atomic test and update of one item. */
  ghost predicate Write(s: State, s': State, rid: nat) {
    && rid in s.procs && s.procs[rid].pc.Prepared? && WellFormed(s.procs[rid].req)
    && var req, pc := s.procs[rid].req, s.procs[rid].pc;
    && var key := TargetKey(req, pc.stamp);
    && match req.op
       case Create(_) =>
         if key in s.table then s' == s.(procs := At(s, rid, Failed(AlreadyExists)))
         else Commits(s, s', rid, Stored(pc.updated), RecordOf(pc.updated, "CREATE"))
       case Replace(_, _, ifMatch) =>
         if !ConditionHolds(s.table, key, ifMatch) then s' == s.(procs := At(s, rid, Failed(ETagMismatch)))
         else Commits(s, s', rid, Stored(pc.updated), RecordOf(pc.updated, "REPLACE"))
       case Update(_, _, ifMatch) =>
         if !ConditionHolds(s.table, key, ifMatch) then s' == s.(procs := At(s, rid, Failed(ETagMismatch)))
         else Commits(s, s', rid, Stored(pc.updated), RecordOf(pc.updated, "UPDATE"))
       case Delete(_, ifMatch) =>
         if !ConditionHolds(s.table, key, ifMatch) then s' == s.(procs := At(s, rid, Failed(ETagMismatch)))
         else
           // The update touches two attributes of the item as it is now.
           pc.base.Some? &&
           Commits(s, s', rid, s.table[key].(deleted := true, updatedAt := pc.stamp.now),
                   DeleteRecord(pc.base.value, req, pc.stamp))
  }

  predicate ConditionHolds(table: Table, key: Key, ifMatch: string) {
    key in table && table[key].etag == ifMatch && !table[key].deleted
  }

  ghost predicate Commits(s: State, s': State, rid: nat, after: Feature, record: ChangeRecord)
    requires rid in s.procs && s.procs[rid].pc.Prepared?
  {
    var req, pc := s.procs[rid].req, s.procs[rid].pc;
    s' == s.(table := s.table[TargetKey(req, pc.stamp) := after],
             procs := At(s, rid, Written(record, pc.updated)),
             commits := s.commits + [Commit(rid, req, pc.stamp, pc.updated, after)])
  }

  /** The unconditional put of the change record; then the response goes out. */
  ghost predicate Log(s: State, s': State, rid: nat) {
    && rid in s.procs && s.procs[rid].pc.Written?
    && var record, response := s.procs[rid].pc.record, s.procs[rid].pc.response;
    && s' == s.(changes := s.changes[ChangeKeyOf(record) := record],
                procs := At(s, rid, Done(response)),
                published := s.published + {response.etag})
  }

  predicate InFlight(pc: Pc) {
    !pc.Done? && !pc.Failed? && !pc.Stopped?
  }

  ghost predicate Stop(s: State, s': State, rid: nat) {
    && rid in s.procs && InFlight(s.procs[rid].pc)
    && s' == s.(procs := At(s, rid, Stopped(s.procs[rid].pc)))
  }

  /** A GET of a feature publishes the ETag it saw. */
  ghost predicate Get(cfg: Config, s: State, s': State, key: Key, item: Option<Feature>) {
    && MayRead(cfg, s, key, item) && item.Some?
    && s' == s.(published := s.published + {item.value.etag})
  }

  datatype Step =
    | StartStep(rid: nat, req: Request)
    | PermitStep(rid: nat, item: Option<Feature>)
    | ReadStep(rid: nat, item: Option<Feature>)
    | PrepareStep(rid: nat, stamp: Stamp)
    | WriteStep(rid: nat)
    | LogStep(rid: nat)
    | StopStep(rid: nat)
    | GetStep(key: Key, item: Option<Feature>)

  ghost predicate NextBy(cfg: Config, s: State, s': State, step: Step) {
    match step
    case StartStep(rid, req) => Start(cfg, s, s', rid, req)
    case PermitStep(rid, item) => Permit(cfg, s, s', rid, item)
    case ReadStep(rid, item) => ReadItem(cfg, s, s', rid, item)
    case PrepareStep(rid, stamp) => Prepare(s, s', rid, stamp)
    case WriteStep(rid) => Write(s, s', rid)
    case LogStep(rid) => Log(s, s', rid)
    case StopStep(rid) => Stop(s, s', rid)
    case GetStep(key, item) => Get(cfg, s, s', key, item)
  }

  ghost predicate NextState(cfg: Config, s: State, s': State) {
    exists step :: NextBy(cfg, s, s', step)
  }

  /** A run from the empty tables. */
  ghost predicate IsRun(cfg: Config, run: seq<State>) {
    && run != []
    && Init(run[0])
    && forall i | 0 <= i < |run| - 1 :: Steps(cfg, run, i)
  }

  ghost predicate Steps(cfg: Config, run: seq<State>, i: nat)
    requires i + 1 < |run|
  {
    NextState(cfg, run[i], run[i + 1])
  }
}
