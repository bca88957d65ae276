/** The four writes as they would act in one step on the item then stored, and
    the records they leave in the change log. */
module Writes {
  import opened Json
  import opened Features
  import opened Auth
  import MP = MergePatch

  datatype Error =
    | NotFound
    | ETagMismatch
    | OrganizationImmutable
    | AlreadyExists
    | Forbidden

  // ---- Requests ----------------------------------------------------------------------

  datatype Op =
    | Create(body: Value)
    | Replace(id: string, body: Value, ifMatch: string)
    | Update(id: string, patch: Value, ifMatch: string)
    | Delete(id: string, ifMatch: string)

  /** A write request of a caller: organization and roles come from the token. */
  datatype Request = Request(organization: string, collectionId: string, roles: set<string>, op: Op)

  /** What a request draws from the clock and the random generators. */
  datatype Stamp = Stamp(now: Time, etag: string, newId: string)

  /** A POST or PUT body as the schema lets it through. */
  predicate IsBody(v: Value) {
    && v.Dict?
    && ("properties" in v.entries ==> v.entries["properties"].Null? || v.entries["properties"].Dict?)
    && ("visibility" in PropertiesIn(v) ==> PropertiesIn(v)["visibility"].Str?)
  }

  /** A PATCH body: `properties`, when given, is an object, and it may set the
      visibility to a string or to null. */
  predicate IsPatch(v: Value) {
    && v.Dict?
    && ("properties" in v.entries ==> v.entries["properties"].Dict?)
    && ("visibility" in PropertiesIn(v) ==>
          PropertiesIn(v)["visibility"].Str? || PropertiesIn(v)["visibility"].Null?)
  }

  predicate WellFormed(req: Request) {
    match req.op
    case Create(body) => IsBody(body)
    case Replace(_, body, _) => IsBody(body)
    case Update(_, patch, _) => IsPatch(patch)
    case Delete(_, _) => true
  }

  function TargetKey(req: Request, stamp: Stamp): Key {
    MakeKey(req.organization, req.collectionId, if req.op.Create? then stamp.newId else req.op.id)
  }

  // ---- Building the new version --------------------------------------------------------

  function GeometryIn(body: Value): Value
    requires body.Dict?
  {
    if "geometry" in body.entries then body.entries["geometry"] else Null
  }

  function VisibilityIn(properties: map<string, Value>, default: string): string {
    if "visibility" in properties && properties["visibility"].Str? then properties["visibility"].s else default
  }

  /** The properties name no other organization; null counts as no name. */
  predicate OrganizationKept(properties: map<string, Value>, organization: string) {
    "organization" in properties ==>
      properties["organization"].Null? || properties["organization"] == Str(organization)
  }

  function WithoutManaged(properties: map<string, Value>): map<string, Value> {
    properties - {"visibility", "organization"}
  }

  const DEFAULT_VISIBILITY := "public"

  function NewFeature(organization: string, collectionId: string, body: Value, visibility: string,
                      stamp: Stamp): Feature
    requires body.Dict?
  {
    var properties := PropertiesIn(body);
    Feature(stamp.newId, collectionId, organization, VisibilityIn(properties, visibility),
            GeometryIn(body), WithoutManaged(properties), stamp.etag, stamp.now, stamp.now, false)
  }

  function Replacement(current: Feature, organization: string, collectionId: string, id: string, body: Value,
                       stamp: Stamp)
    : Result<Feature, Error>
    requires body.Dict?
  {
    var properties := PropertiesIn(body);
    if !OrganizationKept(properties, organization) then Err(OrganizationImmutable)
    else Ok(Feature(id, collectionId, organization, VisibilityIn(properties, current.visibility),
                    GeometryIn(body), WithoutManaged(properties),
                    stamp.etag, current.createdAt, stamp.now, false))
  }

  function MergedProperties(current: Feature, patch: Value): map<string, Value>
    requires IsPatch(patch)
  {
    if "properties" in patch.entries
    then MP.Merged(Dict(current.properties), patch.entries["properties"]).entries
    else current.properties
  }

  function Patched(current: Feature, organization: string, collectionId: string, id: string, patch: Value, stamp: Stamp)
    : Result<Feature, Error>
    requires IsPatch(patch)
  {
    var properties := MergedProperties(current, patch);
    if !OrganizationKept(properties, organization) then Err(OrganizationImmutable)
    else Ok(Feature(id, collectionId, organization, VisibilityIn(properties, current.visibility),
                    if "geometry" in patch.entries then patch.entries["geometry"] else current.geometry,
                    WithoutManaged(properties),
                    stamp.etag, current.createdAt, stamp.now, false))
  }

  /** The new version that a replace, update or delete makes of `current`. */
  function Next(current: Feature, req: Request, stamp: Stamp): Result<Feature, Error>
    requires WellFormed(req) && !req.op.Create?
  {
    match req.op
    case Replace(id, body, _) => Replacement(current, req.organization, req.collectionId, id, body, stamp)
    case Update(id, patch, _) => Patched(current, req.organization, req.collectionId, id, patch, stamp)
    case Delete(_, _) => Ok(current.(deleted := true, updatedAt := stamp.now))
  }

  // ---- The atomic operations --------------------------------------------------------------

  /** `get_feature`: absent and deleted items are not found, nor is one outside
      a non-empty visibility filter. */
  function Visible(item: Option<Feature>, visibilityFilter: set<string>): Result<Feature, Error> {
    if item.None? || item.value.deleted then Err(NotFound)
    else if visibilityFilter != {} && item.value.visibility !in visibilityFilter then Err(NotFound)
    else Ok(item.value)
  }

  /** The read that precedes a conditional write. */
  function CheckedRead(item: Option<Feature>, ifMatch: string): Result<Feature, Error> {
    match Visible(item, {})
    case Err(e) => Err(e)
    case Ok(f) => if f.etag != ifMatch then Err(ETagMismatch) else Ok(f)
  }

  /** The whole write in one step on the item then stored. The result is the
      feature as the request answers it. */
  function AtomicWrite(item: Option<Feature>, req: Request, stamp: Stamp): Result<Feature, Error>
    requires WellFormed(req)
  {
    if req.op.Create? then
      if item.Some? then Err(AlreadyExists)
      else Ok(NewFeature(req.organization, req.collectionId, req.op.body, DEFAULT_VISIBILITY, stamp))
    else
      match CheckedRead(item, req.op.ifMatch)
      case Err(e) => Err(e)
      case Ok(current) => Next(current, req, stamp)
  }

  // ---- The change log ---------------------------------------------------------------------

  /** The primary key of a record: its sort key holds the instant, then the id. */
  datatype ChangeKey = ChangeKey(pk: string, timestamp: Time, featureId: string)

  datatype ChangeRecord = ChangeRecord(
    collectionId: string,
    featureId: string,
    organization: string,
    operation: string,
    timestamp: Time,
    snapshot: Value)

  function ChangeKeyOf(r: ChangeRecord): ChangeKey {
    ChangeKey(MakePk(r.organization, r.collectionId), r.timestamp, r.featureId)
  }

  function OperationName(op: Op): string {
    match op
    case Create(_) => "CREATE"
    case Replace(_, _, _) => "REPLACE"
    case Update(_, _, _) => "UPDATE"
    case Delete(_, _) => "DELETE"
  }

  function TargetId(req: Request, stamp: Stamp): string {
    if req.op.Create? then stamp.newId else req.op.id
  }

  /** The record of a successful write that leaves the version `f`; the store
      settles the numbers of its snapshot. */
  function RecordFor(req: Request, stamp: Stamp, f: Feature): ChangeRecord {
    ChangeRecord(req.collectionId, TargetId(req, stamp), req.organization, OperationName(req.op), stamp.now,
                 Decoded(ToGeoJson(f)))
  }

  /** As `_write_change` builds it, from the new version alone. */
  function RecordOf(f: Feature, operation: string): ChangeRecord {
    ChangeRecord(f.collectionId, f.id, f.organization, operation, f.updatedAt, Decoded(ToGeoJson(f)))
  }

  /** As `delete_feature` builds it, from the version read before the delete. */
  function DeleteRecord(current: Feature, req: Request, stamp: Stamp): ChangeRecord
    requires req.op.Delete?
  {
    ChangeRecord(req.collectionId, req.op.id, req.organization, "DELETE", stamp.now, Decoded(ToGeoJson(current)))
  }

  /** The requests the operations are made for: a POST or PUT body is an object whose
      properties are an object or null and name a visibility only as text, a PATCH is
      an object whose properties are an object and may set the visibility to null. */
  lemma RequestsTaken(req: Request)
    ensures WellFormed(req) <==>
      match req.op
      case Create(body) =>
        && body.Dict?
        && ("properties" in body.entries ==>
              var p := body.entries["properties"];
              p.Null? || (p.Dict? && ("visibility" in p.entries ==> p.entries["visibility"].Str?)))
      case Replace(_, body, _) =>
        && body.Dict?
        && ("properties" in body.entries ==>
              var p := body.entries["properties"];
              p.Null? || (p.Dict? && ("visibility" in p.entries ==> p.entries["visibility"].Str?)))
      case Update(_, patch, _) =>
        && patch.Dict?
        && ("properties" in patch.entries ==>
              var p := patch.entries["properties"];
              p.Dict? && ("visibility" in p.entries ==> p.entries["visibility"].Str? || p.entries["visibility"].Null?))
      case Delete(_, _) => true
  {
  }

  /** Which item a request is about, and what it goes on record as. */
  lemma TargetsAndRecords(req: Request, stamp: Stamp, f: Feature)
    ensures TargetKey(req, stamp)
      == Key(req.organization + "#COLLECTION#" + req.collectionId,
             "FEATURE#" + if req.op.Create? then stamp.newId else req.op.id)
    ensures var r := RecordFor(req, stamp, f);
      && r.operation == (if req.op.Create? then "CREATE" else if req.op.Replace? then "REPLACE"
                         else if req.op.Update? then "UPDATE" else "DELETE")
      && r.organization == req.organization && r.collectionId == req.collectionId && r.timestamp == stamp.now
      && r.featureId == (if req.op.Create? then stamp.newId else req.op.id)
      && ChangeKeyOf(r) == ChangeKey(req.organization + "#COLLECTION#" + req.collectionId, stamp.now, r.featureId)
  {
  }

  // ---- What the versions keep ----------------------------------------------------------------

  /** Every item in the table: filed under its own key, free of managed
      properties, and not changed by another trip through the store. */
  predicate SoundItem(key: Key, f: Feature) {
    KeyOf(f) == key && CleanProperties(f) && Stored(f) == f
  }

  lemma StoredKeeps(f: Feature)
    ensures var g := Stored(f);
      && KeyOf(g) == KeyOf(f) && (CleanProperties(f) ==> CleanProperties(g)) && Stored(g) == g
      && g.visibility == f.visibility && g.etag == f.etag && g.deleted == f.deleted
      && g.createdAt == f.createdAt && g.updatedAt == f.updatedAt
  {
    StoreRoundTrip(f);
    StoredIsDecoded(f);
    DecodedDict(f.properties);
  }

  /** Storing commutes with marking an already stored version as deleted. */
  lemma StoredDeletion(f: Feature, now: Time)
    requires Stored(f) == f
    ensures Stored(f.(deleted := true, updatedAt := now)) == f.(deleted := true, updatedAt := now)
  {
    StoredIsDecoded(f);
    StoredIsDecoded(f.(deleted := true, updatedAt := now));
  }

  /** Each successful write leaves a sound item at its key. A write other than a
      create keeps organization, collection and id of the key, and the creation
      time, which a create sets; the organization of the stored item is the request's own. */
  lemma WriteIsSound(item: Option<Feature>, req: Request, stamp: Stamp)
    requires WellFormed(req)
    requires item.Some? ==> SoundItem(TargetKey(req, stamp), item.value)
    requires AtomicWrite(item, req, stamp).Ok?
    ensures var f := AtomicWrite(item, req, stamp).value;
      && SoundItem(TargetKey(req, stamp), Stored(f))
      && f.updatedAt == stamp.now
      && (f.deleted <==> req.op.Delete?)
      && (!req.op.Delete? ==>
            f.etag == stamp.etag && f.organization == req.organization && f.collectionId == req.collectionId)
      && (req.op.Delete? ==> f.etag == req.op.ifMatch && Stored(f) == f)
      && f.createdAt == (if req.op.Create? then stamp.now else item.value.createdAt)
      && (!req.op.Create? ==> item.Some?)
  {
    var f := AtomicWrite(item, req, stamp).value;
    StoredKeeps(f);
    if req.op.Delete? {
      StoredDeletion(item.value, stamp.now);
    }
  }

  /** The record the code writes is the record of the version left behind, also
      for a delete, whose snapshot is taken from the version before; its snapshot
      is the GeoJSON of the stored item. */
  lemma RecordShowsStored(item: Option<Feature>, req: Request, stamp: Stamp)
    requires WellFormed(req)
    requires AtomicWrite(item, req, stamp).Ok?
    ensures var f := AtomicWrite(item, req, stamp).value;
      && RecordFor(req, stamp, f).snapshot == ToGeoJson(Stored(f))
      && (!req.op.Delete? ==> RecordOf(f, OperationName(req.op)) == RecordFor(req, stamp, f))
      && (req.op.Delete? ==> item.Some? && DeleteRecord(item.value, req, stamp) == RecordFor(req, stamp, f))
  {
    SnapshotOfStored(AtomicWrite(item, req, stamp).value);
  }

  /** A request by a caller who is not an admin keeps the visibility, given that
      a replace was checked against the very version it overwrites. */
  lemma EditorKeepsVisibility(item: Option<Feature>, req: Request, stamp: Stamp)
    requires WellFormed(req) && !req.op.Create? && "admin" !in req.roles
    requires item.Some? && CleanProperties(item.value)
    requires req.op.Replace? ==> MayReplace(req.roles, req.op.body, item.value.visibility)
    requires req.op.Update? ==> MayUpdate(req.roles, req.op.patch)
    requires AtomicWrite(item, req, stamp).Ok?
    ensures AtomicWrite(item, req, stamp).value.visibility == item.value.visibility
  {
  }

  /** What a PATCH leaves in the properties: the merge without the two managed
      members, and where it agrees with RFC 7396 the RFC's result without them. */
  lemma PatchStoresRfcMerge(item: Option<Feature>, req: Request, stamp: Stamp)
    requires WellFormed(req) && req.op.Update? && "properties" in req.op.patch.entries
    requires AtomicWrite(item, req, stamp).Ok?
    ensures AtomicWrite(item, req, stamp).value.properties ==
      var merged := MP.Merged(Dict(item.value.properties), req.op.patch.entries["properties"]).entries;
      merged - {"organization", "visibility"}
    ensures MP.Agreeable(Dict(item.value.properties), req.op.patch.entries["properties"]) ==>
      AtomicWrite(item, req, stamp).value.properties ==
        MP.RfcMergePatch(Dict(item.value.properties), req.op.patch.entries["properties"]).entries
          - {"organization", "visibility"}
  {
    MP.MergeIsRfcIffAgreeable(Dict(item.value.properties), req.op.patch.entries["properties"]);
  }

  /** What a POST or PUT sends is what later readers get, up to the representation
      of numbers: every member of the body's properties but the two managed ones,
      and the geometry; beside them only the caller's organization and the
      visibility sent, or else `public`, or the one before. */
  lemma SentIsShown(item: Option<Feature>, req: Request, stamp: Stamp)
    requires WellFormed(req) && (req.op.Create? || req.op.Replace?)
    requires AtomicWrite(item, req, stamp).Ok?
    ensures var f, body := Stored(AtomicWrite(item, req, stamp).value), req.op.body;
      var sent := if "properties" in body.entries && body.entries["properties"].Dict?
                  then body.entries["properties"].entries else map[];
      var shown := f.properties["organization" := Str(f.organization)]["visibility" := Str(f.visibility)];
      && f.id == (if req.op.Create? then stamp.newId else req.op.id)
      && SameUpToNumbers(if "geometry" in body.entries then body.entries["geometry"] else Null, f.geometry)
      && shown.Keys == sent.Keys + {"organization", "visibility"}
      && (forall name | name in sent && name !in {"organization", "visibility"} ::
            SameUpToNumbers(sent[name], shown[name]))
      && shown["organization"] == Str(req.organization)
      && shown["visibility"] == (
           if "visibility" in sent then sent["visibility"]
           else Str(if req.op.Create? then "public" else item.value.visibility))
  {
    hide Decoded;
    var f := AtomicWrite(item, req, stamp).value;
    var sent := PropertiesIn(req.op.body);
    StoredIsDecoded(f);
    DecodedDict(f.properties);
    DecodedKeepsValue(f.geometry);
    forall name | name in sent && name !in {"organization", "visibility"}
      ensures SameUpToNumbers(sent[name], GeoJsonProperties(Stored(f))[name])
    {
      DecodedKeepsValue(sent[name]);
    }
  }

  /** Stored properties hold no managed member, so a merged one is the patch's own. */
  lemma ManagedMembersMerge(current: Feature, patch: Value, name: string)
    requires CleanProperties(current) && patch.Dict? && name in {"organization", "visibility"}
    ensures var merged := MP.Merged(Dict(current.properties), patch).entries;
      && (name in merged <==> name in patch.entries && !patch.entries[name].Null?)
      && (name in merged ==> merged[name] == patch.entries[name])
  {
    var merged := MP.Merged(Dict(current.properties), patch).entries;
    if name in merged {
      assert merged[name] == MP.MergedMember(Dict(current.properties), patch, name);
    }
  }

  /** A PATCH sets the geometry and the visibility it names, a null visibility naming
      none, and leaves alone those it does not name, and every value at a path of
      properties that it does not touch. */
  lemma PatchKeepsUntouched(item: Option<Feature>, req: Request, stamp: Stamp, path: seq<string>)
    requires WellFormed(req) && req.op.Update?
    requires AtomicWrite(item, req, stamp).Ok? && CleanProperties(item.value)
    ensures var f, patch := AtomicWrite(item, req, stamp).value, req.op.patch;
      var named := if "properties" in patch.entries then patch.entries["properties"].entries else map[];
      && f.geometry == (
           if "geometry" in req.op.patch.entries then req.op.patch.entries["geometry"] else item.value.geometry)
      && f.visibility == (
           if "visibility" in named && !named["visibility"].Null? then named["visibility"].s else item.value.visibility)
      && (path != [] && path[0] !in {"organization", "visibility"}
          && ("properties" in req.op.patch.entries ==> MP.Untouched(req.op.patch.entries["properties"], path)) ==>
            MP.Lookup(Dict(f.properties), path) == MP.Lookup(Dict(item.value.properties), path))
  {
    if "properties" in req.op.patch.entries {
      ManagedMembersMerge(item.value, req.op.patch.entries["properties"], "visibility");
    }
    if "properties" in req.op.patch.entries && MP.Untouched(req.op.patch.entries["properties"], path) {
      MP.MergeKeepsUntouched(Dict(item.value.properties), req.op.patch.entries["properties"], path);
    }
  }

  /** The properties of the body name an organization other than the caller's; null
      does not count. */
  predicate NamesOther(body: Value, organization: string) {
    && body.Dict? && "properties" in body.entries && body.entries["properties"].Dict?
    && var properties := body.entries["properties"].entries;
    && "organization" in properties
    && !properties["organization"].Null? && properties["organization"] != Str(organization)
  }

  /** Why a write is refused, and that it is not refused otherwise. */
  lemma RefusedIff(item: Option<Feature>, req: Request, stamp: Stamp)
    requires WellFormed(req) && (item.Some? ==> CleanProperties(item.value))
    ensures var r := AtomicWrite(item, req, stamp);
      if req.op.Create? then r == Err(AlreadyExists) <==> item.Some?
      else
        && (r == Err(NotFound) <==> item.None? || item.value.deleted)
        && (r == Err(ETagMismatch) <==> item.Some? && !item.value.deleted && item.value.etag != req.op.ifMatch)
        && (r == Err(OrganizationImmutable) <==>
              && item.Some? && !item.value.deleted && item.value.etag == req.op.ifMatch
              && ((req.op.Replace? && NamesOther(req.op.body, req.organization))
                  || (req.op.Update? && NamesOther(req.op.patch, req.organization))))
    ensures AtomicWrite(item, req, stamp).Err? ==>
      var e := AtomicWrite(item, req, stamp).error;
      if req.op.Create? then e == AlreadyExists else e in {NotFound, ETagMismatch, OrganizationImmutable}
  {
    if req.op.Update? && item.Some? && "properties" in req.op.patch.entries {
      ManagedMembersMerge(item.value, req.op.patch.entries["properties"], "organization");
    }
  }
}
