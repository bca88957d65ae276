/** What callers who are not admins can do to a visibility when the read of one item is
    eventually consistent, as the service's is: a PUT may be checked against an
    earlier version than the one it overwrites. */
module StaleReads {
  import opened Json
  import opened Features
  import opened Writes
  import opened Protocol
  import opened History
  import opened ProtocolInvariant
  import opened ProtocolVisibility
  import opened ProtocolSolo
  import opened VisibilityHistory

  /** Reads may be stale; clients still take their If-Match values from responses. */
  const EVENTUAL := Config(false, true)

  const ORIGIN := Dict(map["type" := Str("Point"), "coordinates" := List([Int(0), Int(0)])])

  /** A GeoJSON feature. */
  function BodyWith(properties: map<string, Value>): Value {
    Dict(map["type" := Str("Feature"), "geometry" := ORIGIN, "properties" := Dict(properties)])
  }

  function EditorPut(organization: string, collectionId: string, id: string, visibility: string,
                     ifMatch: string): Request {
    var body := BodyWith(map["visibility" := Str(visibility)]);
    Request(organization, collectionId, {"editor"}, Replace(id, body, ifMatch))
  }

  /** The last step of the path is an editor's commit, and it gives the feature another
      visibility than it had. */
  ghost predicate EndsInEditorChange(path: seq<State>, k: Key, visibility: string) {
    && |path| >= 2
    && var s, s' := path[|path| - 2], path[|path| - 1];
    && k in s.table && k in s'.table && s'.commits != [] && Front(s'.commits) == s.commits
    && "admin" !in Final(s'.commits).req.roles && CommitKey(Final(s'.commits)) == k
    && s.table[k].visibility != visibility && s'.table[k].visibility == visibility
  }

  /** A consistent read finds what is stored and nothing else. An eventually consistent
      one may also find nothing, or what any earlier write at the key has left. */
  lemma ReadsMean(cfg: Config, s: State, k: Key, f: Feature)
    ensures MayRead(cfg, s, k, None) <==> k !in s.table || !cfg.consistent
    ensures MayRead(cfg, s, k, Some(f)) <==>
      || (k in s.table && s.table[k] == f)
      || (!cfg.consistent && exists c ::
            && c in s.commits && c.after == f
            && k == Key(c.req.organization + "#COLLECTION#" + c.req.collectionId,
                        "FEATURE#" + if c.req.op.Create? then c.stamp.newId else c.req.op.id))
  {
    forall c | c in s.commits
      ensures CommitKey(c) == Key(c.req.organization + "#COLLECTION#" + c.req.collectionId,
                                  "FEATURE#" + if c.req.op.Create? then c.stamp.newId else c.req.op.id)
    {
      TargetsAndRecords(c.req, c.stamp, f);
    }
  }

  /** What the editor's PUT makes of a live item whose ETag it names. */
  lemma EditorPutResult(current: Feature, organization: string, collectionId: string, id: string, visibility: string,
                        stamp: Stamp)
    requires !current.deleted
    ensures var req := EditorPut(organization, collectionId, id, visibility, current.etag);
      && WellFormed(req)
      && AtomicWrite(Some(current), req, stamp).Ok?
      && AtomicWrite(Some(current), req, stamp) == Build(req, Some(current), stamp)
      && AtomicWrite(Some(current), req, stamp).value.visibility == visibility
  {
  }

  /** The handler's check passes on any live version with the visibility asked for. */
  lemma EditorPutPasses(stale: Feature, organization: string, collectionId: string, id: string, ifMatch: string)
    requires !stale.deleted
    ensures var req := EditorPut(organization, collectionId, id, stale.visibility, ifMatch);
      WellFormed(req) && Checks(req, Some(stale)) == Permitted
  {
  }

  /** The ETag becomes known, the check meets a stale version, and the read the current one. */
  lemma StaleCheck(cfg: Config, s: State, rid: nat, organization: string, collectionId: string, id: string,
                   stale: Feature, earlier: nat) returns (path: seq<State>)
    requires var k := MakeKey(organization, collectionId, id);
      && !cfg.consistent && rid !in s.procs
      && k in s.table && !s.table[k].deleted
      && earlier < |s.commits| && CommitKey(s.commits[earlier]) == k
      && stale == s.commits[earlier].after && !stale.deleted
    ensures path != [] && path[0] == s && IsPath(cfg, path)
    ensures var current := s.table[MakeKey(organization, collectionId, id)];
      var req := EditorPut(organization, collectionId, id, stale.visibility, current.etag);
      path[|path| - 1] == s.(procs := s.procs[rid := Proc(req, Read(current))],
                             published := s.published + {current.etag})
  {
    hide Checks, WellFormed, IsPath;
    var k := MakeKey(organization, collectionId, id);
    var current := s.table[k];
    var req := EditorPut(organization, collectionId, id, stale.visibility, current.etag);
    EditorPutPasses(stale, organization, collectionId, id, current.etag);
    path := Alone(cfg, s);
    var known := s.(published := s.published + {current.etag});
    PathExtends(cfg, path, known, GetStep(k, Some(current)));
    path := path + [known];
    var started := known.(procs := s.procs[rid := Proc(req, Started)]);
    PathExtends(cfg, path, started, StartStep(rid, req));
    path := path + [started];
    var permitted := started.(procs := At(started, rid, Permitted));
    PathExtends(cfg, path, permitted, PermitStep(rid, Some(stale)));
    path := path + [permitted];
    var read := permitted.(procs := At(permitted, rid, Read(current)));
    PathExtends(cfg, path, read, ReadStep(rid, Some(current)));
    path := path + [read];
  }

  /** From every reachable state an editor can give a live feature back the visibility
      of any earlier live version. */
  lemma StalePutChangesVisibility(cfg: Config, s: State, rid: nat, organization: string, collectionId: string,
                                  id: string,
                                  earlier: nat, etag: string) returns (path: seq<State>)
    requires !cfg.consistent && Inv(s) && rid !in s.procs && etag !in s.issued
    requires var k := MakeKey(organization, collectionId, id);
      && k in s.table && !s.table[k].deleted
      && earlier < |s.commits| && CommitKey(s.commits[earlier]) == k
      && !s.commits[earlier].after.deleted && s.commits[earlier].after.visibility != s.table[k].visibility
    ensures path != [] && path[0] == s && IsPath(cfg, path)
    ensures EndsInEditorChange(path, MakeKey(organization, collectionId, id), s.commits[earlier].after.visibility)
    ensures |path[|path| - 1].commits| == |s.commits| + 1 && NoAdminFrom(path[|path| - 1].commits, |s.commits|)
    ensures |path| >= 2 && path[|path| - 2].table == s.table && path[|path| - 2].commits == s.commits
  {
    hide Stored, Inv, IsPath, Checks, WellFormed, AtomicWrite, Build, RecordFor, Write;
    var k := MakeKey(organization, collectionId, id);
    var stale, current := s.commits[earlier].after, s.table[k];
    var known := s.(published := s.published + {current.etag});
    var req := EditorPut(organization, collectionId, id, stale.visibility, current.etag);
    var stamp := Stamp(s.clock + 1, etag, "");
    EditorPutResult(current, organization, collectionId, id, stale.visibility, stamp);
    var updated := AtomicWrite(Some(current), req, stamp).value;
    path := StaleCheck(cfg, s, rid, organization, collectionId, id, stale, earlier);
    var read := path[|path| - 1];
    var prepared := read.(procs := s.procs[rid := Proc(req, Prepared(Some(current), stamp, updated))],
                          clock := stamp.now, issued := s.issued + {etag});
    PathExtends(cfg, path, prepared, PrepareStep(rid, stamp));
    path := path + [prepared];
    var commit := Commit(rid, req, stamp, updated, Stored(updated));
    var written := prepared.(table := s.table[k := Stored(updated)],
                             procs := At(prepared, rid, Written(RecordFor(req, stamp, updated), updated)),
                             commits := s.commits + [commit]);
    GetKeeps(cfg, s, known, k, Some(current));
    SoloCommits(known, prepared, written, rid, req, stamp);
    PathExtends(cfg, path, written, WriteStep(rid));
    path := path + [written];
    StoredKeeps(updated);
    Appended(s.commits, commit);
  }

  // ---- Exactly which visibilities ----------------------------------------------------------------

  /** Some continuation without a commit by an admin leaves the feature with the visibility. */
  ghost predicate EditorsReach(cfg: Config, s: State, k: Key, visibility: string) {
    exists path :: EditorsLeadTo(cfg, path, s, k, visibility)
  }

  ghost predicate EditorsLeadTo(cfg: Config, path: seq<State>, s: State, k: Key, visibility: string) {
    && path != [] && path[0] == s && IsPath(cfg, path)
    && var s' := path[|path| - 1];
    && NoAdminFrom(s'.commits, |s.commits|)
    && k in s'.table && s'.table[k].visibility == visibility
  }

  lemma EditorsReachEarlier(cfg: Config, s: State, k: Key, visibility: string)
    requires !cfg.consistent && Inv(s) && k in s.table && !s.table[k].deleted
    requires Had(s.commits, k, visibility)
    ensures EditorsReach(cfg, s, k, visibility)
  {
    hide Inv, IsPath, SoundItem;
    if s.table[k].visibility == visibility {
      var path := Alone(cfg, s);
      assert EditorsLeadTo(cfg, path, s, k, visibility);
    } else {
      var earlier :| 0 <= earlier < |s.commits| && Left(s.commits[earlier], k, visibility);
      var rid := FreshRid(s.procs.Keys);
      var etag := FreshToken(s.issued);
      ItemKeyIs(s, k);
      var f := s.table[k];
      var path := StalePutChangesVisibility(cfg, s, rid, f.organization, f.collectionId, f.id, earlier, etag);
      assert EditorsLeadTo(cfg, path, s, k, visibility);
    }
  }

  lemma ItemKeyIs(s: State, k: Key)
    requires Inv(s) && k in s.table
    ensures k == MakeKey(s.table[k].organization, s.table[k].collectionId, s.table[k].id)
  {
    TableIsSound(s.commits);
  }

  /** With eventually consistent reads, from any state of any run: callers who are not
      admins can bring a live feature to a visibility if and only if one of its live
      versions had it. */
  lemma EditorsReachIff(cfg: Config, run: seq<State>, k: Key, visibility: string)
    requires !cfg.consistent && IsRun(cfg, run)
    requires var s := run[|run| - 1]; k in s.table && !s.table[k].deleted
    ensures EditorsReach(cfg, run[|run| - 1], k, visibility) <==> Had(run[|run| - 1].commits, k, visibility)
  {
    hide Inv, Had, NoAdminFrom;
    var s := run[|run| - 1];
    RunKeeps(cfg, run, |run| - 1);
    if EditorsReach(cfg, s, k, visibility) {
      var path :| EditorsLeadTo(cfg, path, s, k, visibility);
      PathsJoin(cfg, run, path);
      var longer := run + path[1..];
      assert longer[|run| - 1] == s;
      EditorsOnlyRestore(cfg, longer, |run| - 1, |longer| - 1, k);
    }
    if Had(s.commits, k, visibility) {
      EditorsReachEarlier(cfg, s, k, visibility);
    }
  }

  // ---- Such states are reached ------------------------------------------------------------------

  lemma PathsJoin(cfg: Config, a: seq<State>, b: seq<State>)
    requires IsPath(cfg, a) && IsPath(cfg, b) && a[|a| - 1] == b[0]
    ensures IsPath(cfg, a + b[1..])
    ensures (a + b[1..])[0] == a[0] && (a + b[1..])[|a + b[1..]| - 1] == b[|b| - 1]
    ensures |b| >= 2 ==> |a + b[1..]| >= 2 && (a + b[1..])[|a + b[1..]| - 2] == b[|b| - 2]
  {
    var c := a + b[1..];
    forall i | 0 <= i < |c| - 1 ensures Steps(cfg, c, i) {
      if i < |a| - 1 {
        assert Steps(cfg, a, i);
      } else {
        assert Steps(cfg, b, i - (|a| - 1));
      }
    }
  }

  lemma PathIsRun(cfg: Config, path: seq<State>)
    requires path != [] && IsPath(cfg, path) && Init(path[0])
    ensures IsRun(cfg, path) && Inv(path[|path| - 1])
  {
    RunKeeps(cfg, path, |path| - 1);
  }

  const EMPTY := State(map[], map[], map[], 0, {}, {}, [])
  const CREATION := Request("A", "c", {"admin"}, Create(BodyWith(map[])))
  const CREATED := Stamp(1, "e1", "f")
  const HIDING := Request("A", "c", {"admin"}, Replace("f", BodyWith(map["visibility" := Str("members")]), "e1"))
  const HIDDEN := Stamp(2, "e2", "")

  /** An admin creates a public feature. */
  lemma CreationSucceeds()
    ensures CanSucceed(EVENTUAL, EMPTY, 0, CREATION, CREATED)
    ensures WellFormed(CREATION) && AtomicWrite(None, CREATION, CREATED).Ok?
    ensures var f := AtomicWrite(None, CREATION, CREATED).value;
      !f.deleted && f.etag == "e1" && f.visibility == "public"
  {
    assert Lookup(EMPTY.table, TargetKey(CREATION, CREATED)) == None;
  }

  /** The admin shows it to members only. */
  lemma HidingSucceeds(s: State, item: Feature)
    requires 1 !in s.procs && s.clock == 1 && "e1" in s.published && "e2" !in s.issued
    requires Lookup(s.table, TargetKey(HIDING, HIDDEN)) == Some(item) && !item.deleted && item.etag == "e1"
    ensures CanSucceed(EVENTUAL, s, 1, HIDING, HIDDEN)
    ensures WellFormed(HIDING) && AtomicWrite(Some(item), HIDING, HIDDEN).Ok?
    ensures var f := AtomicWrite(Some(item), HIDING, HIDDEN).value;
      !f.deleted && f.etag == "e2" && f.visibility == "members"
  {
    assert Checks(HIDING, Some(item)) == Permitted;
  }

  /** With eventually consistent reads there is a run in which an admin restricts a
      public feature to members, and then an editor makes it public again. */
  lemma EditorCanChangeVisibility() returns (run: seq<State>)
    ensures IsRun(EVENTUAL, run)
    ensures EndsInEditorChange(run, MakeKey("A", "c", "f"), "public")
    ensures var k, s := MakeKey("A", "c", "f"), run[|run| - 2];
      && |s.commits| == 2 && s.commits[0].after.visibility == "public" && s.commits[1].after.visibility == "members"
      && CommitKey(s.commits[0]) == CommitKey(s.commits[1]) == k && "admin" in s.commits[1].req.roles
      && s.table[k] == s.commits[1].after
  {
    hide Stored, Inv, IsPath, Checks, WellFormed, AtomicWrite, RecordFor, CanSucceed, MakePk, MakeSk, IsRun, Init;
    var k := MakeKey("A", "c", "f");
    StartsEmpty();
    CreationSucceeds();
    var f1 := AtomicWrite(None, CREATION, CREATED).value;
    StoredKeeps(f1);
    run := SoloWrite(EVENTUAL, EMPTY, 0, CREATION, CREATED);
    PathIsRun(EVENTUAL, run);
    var s1 := run[|run| - 1];
    assert Lookup(s1.table, k) == Some(Stored(f1));
    HidingSucceeds(s1, Stored(f1));
    var f2 := AtomicWrite(Some(Stored(f1)), HIDING, HIDDEN).value;
    StoredKeeps(f2);
    var more := SoloWrite(EVENTUAL, s1, 1, HIDING, HIDDEN);
    PathsJoin(EVENTUAL, run, more);
    run := run + more[1..];
    PathIsRun(EVENTUAL, run);
    var s2 := run[|run| - 1];
    assert s2.table[k] == Stored(f2) && s2.commits[0].after == Stored(f1) && s2.commits[1].after == Stored(f2);
    more := StalePutChangesVisibility(EVENTUAL, s2, 2, "A", "c", "f", 0, "e3");
    PathsJoin(EVENTUAL, run, more);
    run := run + more[1..];
    PathIsRun(EVENTUAL, run);
  }

  lemma StartsEmpty()
    ensures Init(EMPTY) && Inv(EMPTY)
  {
    PathIsRun(EVENTUAL, [EMPTY]);
  }
}
