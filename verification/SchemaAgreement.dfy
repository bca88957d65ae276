/** What clients send under the receivable schema comes back under the returnable one. */
module SchemaAgreement {
  import opened Json
  import opened Features
  import opened Auth
  import opened Collections
  import opened Schemas
  import opened Writes
  import opened Protocol
  import opened History
  import opened ProtocolTheorems
  import Geo = Geometry
  import MP = MergePatch

  predicate VisibilityAllowed(config: CollectionConfig, visibility: string) {
    config.visibilityValues == [] || visibility in config.visibilityValues
  }

  /** The request's body has passed the receivable schema. A PATCH body is not validated. */
  ghost predicate Received(config: CollectionConfig, body: Value) {
    Valid(body, FeatureSchema(config, true))
  }

  ghost predicate Returnable(config: CollectionConfig, f: Feature) {
    Valid(ToGeoJson(f), FeatureSchema(config, false))
  }

  // ---- The two schemas, member by member ---------------------------------------------------------

  lemma StringsHold(values: seq<string>, v: Value)
    ensures Enumerated(v, Strings(values)) <==> v.Str? && v.s in values
  {
    if Enumerated(v, Strings(values)) {
      var i :| 0 <= i < |values| && SameUpToNumbers(Strings(values)[i], v);
    }
    if v.Str? && v.s in values {
      var i :| 0 <= i < |values| && values[i] == v.s;
      assert SameUpToNumbers(Strings(values)[i], v);
    }
  }

  lemma OneStringHolds(s: string, v: Value)
    ensures Valid(v, OneString(s)) <==> v == Str(s)
  {
    assert [Str(s)] == Strings([s]);
    StringsHold([s], v);
  }

  lemma VisibilityHolds(config: CollectionConfig, v: Value)
    ensures Valid(v, VisibilitySchema(config)) <==> v.Str? && VisibilityAllowed(config, v.s)
  {
    StringsHold(config.visibilityValues, v);
  }

  /** Every member that has a schema satisfies it, and the required ones are there. */
  ghost predicate PropertiesHold(config: CollectionConfig, receivable: bool, properties: map<string, Value>) {
    && (forall name | name in config.requiredProperties :: name in properties)
    && (!receivable ==> "organization" in properties && "visibility" in properties)
    && forall name | name in properties :: MemberHolds(config, receivable, name, properties[name])
  }

  ghost predicate MemberHolds(config: CollectionConfig, receivable: bool, name: string, v: Value) {
    MemberSchema(config, receivable, name).Some? ==> Valid(v, MemberSchema(config, receivable, name).value)
  }

  lemma PropertiesObjectHolds(config: CollectionConfig, receivable: bool, v: Value)
    ensures Valid(v, PropertiesObject(config, receivable)) <==> v.Dict? && PropertiesHold(config, receivable, v.entries)
  {
    hide Valid;
    var s := PropertiesObject(config, receivable);
    ObjectHolds(v, s);
    if v.Dict? {
      forall name | name in v.entries
        ensures MemberHolds(config, receivable, name, v.entries[name]) <==>
          (name in s.properties ==> Valid(v.entries[name], s.properties[name]))
      {
      }
      assert s.required <= v.entries.Keys <==>
        (forall name | name in config.requiredProperties :: name in v.entries)
        && (!receivable ==> "organization" in v.entries && "visibility" in v.entries);
    }
  }

  /** A schema that asks for an object and says nothing but of its members. */
  lemma ObjectHolds(v: Value, s: Schema)
    requires s == Typed("object").(required := s.required, properties := s.properties)
    ensures Valid(v, s) <==> (
      && v.Dict? && s.required <= v.entries.Keys
      && forall k | k in s.properties && k in v.entries :: Valid(v.entries[k], s.properties[k]))
  {
  }

  lemma FeatureHolds(config: CollectionConfig, receivable: bool, v: Value)
    ensures Valid(v, FeatureSchema(config, receivable)) <==>
      && v.Dict? && {"type", "geometry", "properties"} <= v.entries.Keys
      && v.entries["type"] == Str("Feature")
      && Valid(v.entries["geometry"], GeometrySchema(config.geometryType))
      && Valid(v.entries["properties"], PropertiesObject(config, receivable))
      && (!receivable ==> "id" in v.entries && v.entries["id"].Str?)
  {
    hide Valid, GeometrySchema, PropertiesObject, OneString;
    var s := FeatureSchema(config, receivable);
    ObjectHolds(v, s);
    if v.Dict? && "type" in v.entries {
      OneStringHolds("Feature", v.entries["type"]);
    }
    if v.Dict? && "id" in v.entries {
      StringHolds(v.entries["id"]);
    }
  }

  lemma StringHolds(v: Value)
    ensures Valid(v, Typed("string")) <==> v.Str?
  {
  }

  // ---- Bodies ---------------------------------------------------------------------------------------

  /** A received body is one the write operations are made for, and its geometry one
      whose envelope can be computed. */
  lemma ReceivedIsBody(config: CollectionConfig, body: Value)
    requires Received(config, body)
    ensures IsBody(body)
    ensures PropertiesHold(config, true, PropertiesIn(body))
    ensures Valid(GeometryIn(body), GeometrySchema(config.geometryType))
    ensures "visibility" in PropertiesIn(body) ==>
      PropertiesIn(body)["visibility"].Str? && VisibilityAllowed(config, PropertiesIn(body)["visibility"].s)
  {
    hide Valid, GeometrySchema;
    FeatureHolds(config, true, body);
    PropertiesObjectHolds(config, true, body.entries["properties"]);
    var properties := PropertiesIn(body);
    if "visibility" in properties {
      assert MemberHolds(config, true, "visibility", properties["visibility"]);
      VisibilityHolds(config, properties["visibility"]);
    }
  }

  // ---- Created and replaced features ----------------------------------------------------------------

  lemma ReturnableHolds(config: CollectionConfig, f: Feature)
    ensures Returnable(config, f) <==>
      Valid(f.geometry, GeometrySchema(config.geometryType)) && PropertiesHold(config, false, GeoJsonProperties(f))
  {
    hide Valid, GeometrySchema, PropertiesHold;
    FeatureHolds(config, false, ToGeoJson(f));
    PropertiesObjectHolds(config, false, Dict(GeoJsonProperties(f)));
  }

  /** A version made from a received body differs from it only in the managed
      members, so its visibility decides. */
  lemma MadeFromBody(config: CollectionConfig, body: Value, f: Feature)
    requires Received(config, body)
    requires f.geometry == GeometryIn(body) && f.properties == WithoutManaged(PropertiesIn(body))
    ensures Returnable(config, f) <==> VisibilityAllowed(config, f.visibility)
  {
    hide Valid, GeometrySchema, Received, Returnable, PropertySchemaOf, VisibilitySchema;
    ReceivedIsBody(config, body);
    ReturnableHolds(config, f);
    VisibilityHolds(config, Str(f.visibility));
    StringHolds(Str(f.organization));
    var sent, shown := PropertiesIn(body), GeoJsonProperties(f);
    assert MemberHolds(config, false, "visibility", shown["visibility"]) <==> VisibilityAllowed(config, f.visibility);
    forall name | name in shown && name != "visibility" ensures MemberHolds(config, false, name, shown[name]) {
      if name != "organization" {
        assert shown[name] == sent[name];
        assert MemberHolds(config, true, name, sent[name]);
      }
    }
  }

  /** What later readers get satisfies the schema exactly when what was answered did. */
  lemma StoredIsReturnableToo(config: CollectionConfig, f: Feature)
    ensures Returnable(config, Stored(f)) <==> Returnable(config, f)
  {
    hide Valid, FeatureSchema;
    SnapshotOfStored(f);
    DecodedKeepsValue(ToGeoJson(f));
    ValidUpToNumbers(ToGeoJson(f), ToGeoJson(Stored(f)), FeatureSchema(config, false));
  }

  /** A feature created from a received body satisfies the returnable schema, as
      answered and as stored, exactly when the body names a visibility, or the
      collection restricts it not at all, or allows `public`. */
  lemma CreatedIsReturnableIff(config: CollectionConfig, body: Value, organization: string, stamp: Stamp)
    requires Received(config, body)
    ensures IsBody(body)
    ensures var f := NewFeature(organization, config.collectionId, body, DEFAULT_VISIBILITY, stamp);
      && (Returnable(config, f) <==> "visibility" in PropertiesIn(body) || VisibilityAllowed(config, "public"))
      && (Returnable(config, Stored(f)) <==> Returnable(config, f))
  {
    hide Returnable, Received, Stored;
    ReceivedIsBody(config, body);
    var f := NewFeature(organization, config.collectionId, body, DEFAULT_VISIBILITY, stamp);
    MadeFromBody(config, body, f);
    StoredIsReturnableToo(config, f);
  }

  /** Likewise for a replacement, with the visibility it would keep. */
  lemma ReplacedIsReturnableIff(config: CollectionConfig, current: Feature, organization: string, id: string,
                                body: Value, stamp: Stamp)
    requires Received(config, body)
    requires IsBody(body) && Replacement(current, organization, config.collectionId, id, body, stamp).Ok?
    ensures var f := Replacement(current, organization, config.collectionId, id, body, stamp).value;
      && (Returnable(config, f) <==>
            "visibility" in PropertiesIn(body) || VisibilityAllowed(config, current.visibility))
      && (Returnable(config, Stored(f)) <==> Returnable(config, f))
  {
    hide Returnable, Received, Stored;
    ReceivedIsBody(config, body);
    var f := Replacement(current, organization, config.collectionId, id, body, stamp).value;
    MadeFromBody(config, body, f);
    StoredIsReturnableToo(config, f);
  }

  /** A returnable feature has an allowed visibility. */
  lemma ReturnableIsAllowed(config: CollectionConfig, f: Feature)
    requires Returnable(config, f)
    ensures VisibilityAllowed(config, f.visibility)
  {
    hide Returnable, Valid, GeometrySchema;
    ReturnableHolds(config, f);
    assert MemberHolds(config, false, "visibility", GeoJsonProperties(f)["visibility"]);
    VisibilityHolds(config, Str(f.visibility));
  }

  /** What a PATCH makes of a member that it names: gone, or as the schema of that
      member has it. A null visibility names none. */
  ghost predicate NamedMemberFits(config: CollectionConfig, current: Feature, patch: Value, name: string)
    requires IsPatch(patch) && name in PropertiesIn(patch)
  {
    if PropertiesIn(patch)[name].Null? then name == "visibility" || name !in config.requiredProperties
    else MemberHolds(config, false, name, MP.MergedMember(Dict(current.properties), patch.entries["properties"], name))
  }

  /** A geometry that is named is valid, and so is every named member, save for the
      organization, which is not the patch's to set. */
  ghost predicate PatchFits(config: CollectionConfig, current: Feature, patch: Value)
    requires IsPatch(patch)
  {
    && ("geometry" in patch.entries ==> Valid(patch.entries["geometry"], GeometrySchema(config.geometryType)))
    && forall name | name in PropertiesIn(patch) && name != "organization" ::
         NamedMemberFits(config, current, patch, name)
  }

  /** The properties shown after a PATCH, member by member. */
  lemma PatchedShows(current: Feature, req: Request, stamp: Stamp, name: string)
    requires WellFormed(req) && req.op.Update? && Next(current, req, stamp).Ok?
    requires CleanProperties(current) && name != "organization"
    ensures var patch, before := req.op.patch, GeoJsonProperties(current);
      var named, after := PropertiesIn(patch), GeoJsonProperties(Next(current, req, stamp).value);
      && (name !in named ==> (name in after <==> name in before) && (name in before ==> after[name] == before[name]))
      && (name in named && named[name].Null? ==>
            && (name in after <==> name == "visibility")
            && (name == "visibility" ==> after[name] == before[name]))
      && (name in named && !named[name].Null? ==>
            && name in after
            && after[name] == MP.MergedMember(Dict(current.properties), patch.entries["properties"], name))
  {
    if "properties" in req.op.patch.entries {
      var merged := MP.Merged(Dict(current.properties), req.op.patch.entries["properties"]).entries;
      if name in merged {
        assert merged[name] == MP.MergedMember(Dict(current.properties), req.op.patch.entries["properties"], name);
      }
    }
  }

  lemma PatchedMemberHolds(config: CollectionConfig, current: Feature, req: Request, stamp: Stamp, name: string)
    requires WellFormed(req) && req.op.Update? && Next(current, req, stamp).Ok?
    requires CleanProperties(current) && PropertiesHold(config, false, GeoJsonProperties(current))
    requires name != "organization"
    ensures var named, after := PropertiesIn(req.op.patch), GeoJsonProperties(Next(current, req, stamp).value);
      (name in named ==> NamedMemberFits(config, current, req.op.patch, name)) <==>
        (name in config.requiredProperties ==> name in after)
        && (name in after ==> MemberHolds(config, false, name, after[name]))
  {
    hide MemberHolds, Next;
    PatchedShows(current, req, stamp, name);
  }

  /** A PATCH is not validated. It keeps a returnable feature returnable, as answered
      and as stored, exactly when it fits. */
  lemma PatchedIsReturnableIff(config: CollectionConfig, current: Feature, req: Request, stamp: Stamp)
    requires WellFormed(req) && req.op.Update? && Next(current, req, stamp).Ok?
    requires CleanProperties(current) && Returnable(config, current)
    ensures var f := Next(current, req, stamp).value;
      && (Returnable(config, f) <==> PatchFits(config, current, req.op.patch))
      && (Returnable(config, Stored(f)) <==> Returnable(config, f))
  {
    hide Returnable, Valid, GeometrySchema, MemberHolds, NamedMemberFits, Stored;
    var f := Next(current, req, stamp).value;
    StoredIsReturnableToo(config, f);
    ReturnableHolds(config, current);
    ReturnableHolds(config, f);
    PatchedPropertiesHold(config, current, req, stamp);
  }

  lemma PatchedPropertiesHold(config: CollectionConfig, current: Feature, req: Request, stamp: Stamp)
    requires WellFormed(req) && req.op.Update? && Next(current, req, stamp).Ok?
    requires CleanProperties(current) && PropertiesHold(config, false, GeoJsonProperties(current))
    ensures PropertiesHold(config, false, GeoJsonProperties(Next(current, req, stamp).value)) <==>
      forall name | name in PropertiesIn(req.op.patch) && name != "organization" ::
        NamedMemberFits(config, current, req.op.patch, name)
  {
    hide NamedMemberFits, Next, Valid;
    var f := Next(current, req, stamp).value;
    var after := GeoJsonProperties(f);
    OrganizationHolds(config, f);
    forall name: string | name != "organization"
      ensures (name in PropertiesIn(req.op.patch) ==> NamedMemberFits(config, current, req.op.patch, name)) <==>
        (name in config.requiredProperties ==> name in after)
        && (name in after ==> MemberHolds(config, false, name, after[name]))
    {
      PatchedMemberHolds(config, current, req, stamp, name);
    }
  }

  lemma OrganizationHolds(config: CollectionConfig, f: Feature)
    ensures "organization" in GeoJsonProperties(f)
    ensures MemberHolds(config, false, "organization", GeoJsonProperties(f)["organization"])
  {
    StringHolds(Str(f.organization));
  }

  /** So one that removes a required property of the client's own leaves a feature
      that is not returnable, whatever it was before. */
  lemma PatchCanBreakSchema(config: CollectionConfig, current: Feature, req: Request, stamp: Stamp, name: string)
    requires WellFormed(req) && req.op.Update? && Next(current, req, stamp).Ok?
    requires name in config.requiredProperties && name !in {"visibility", "organization"}
    requires name in PropertiesIn(req.op.patch) && PropertiesIn(req.op.patch)[name] == Null
    ensures !Returnable(config, Next(current, req, stamp).value)
  {
    hide Returnable, Valid, GeometrySchema;
    var f := Next(current, req, stamp).value;
    ReturnableHolds(config, f);
    assert name !in GeoJsonProperties(f);
  }

  // ---- Geometries -------------------------------------------------------------------------------------

  lemma PositionHolds(v: Value)
    requires Valid(v, POSITION)
    ensures Geo.IsPosition(v)
  {
    assert Valid(v.items[0], Typed("number")) && Valid(v.items[1], Typed("number"));
  }

  /** A valid list of things that lie `depth` levels above positions. */
  lemma ListHolds(v: Value, s: Schema, items: Schema, depth: nat)
    requires Valid(v, s) && s.kind == Some("array") && s.items == Some(items)
    requires forall w | Valid(w, items) :: Geo.IsCoordinates(w, depth)
    ensures Geo.IsCoordinates(v, depth + 1)
  {
  }

  lemma CoordinatesHold(geometryType: string, v: Value)
    requires geometryType in GEOMETRY_TYPES && Valid(v, CoordinatesSchema(geometryType))
    ensures Geo.Depth(geometryType).Some? && Geo.IsCoordinates(v, Geo.Depth(geometryType).value)
  {
    hide Valid, POSITION;
    forall w | Valid(w, POSITION) ensures Geo.IsCoordinates(w, 0) {
      PositionHolds(w);
    }
    var lines, rings := ListOfAtLeast(2, POSITION), ListOfAtLeast(4, POSITION);
    forall w | Valid(w, lines) ensures Geo.IsCoordinates(w, 1) {
      ListHolds(w, lines, POSITION, 0);
    }
    forall w | Valid(w, rings) ensures Geo.IsCoordinates(w, 1) {
      ListHolds(w, rings, POSITION, 0);
    }
    forall w | Valid(w, ListOf(rings)) ensures Geo.IsCoordinates(w, 2) {
      ListHolds(w, ListOf(rings), rings, 1);
    }
    var s := CoordinatesSchema(geometryType);
    match Geo.Depth(geometryType).value
    case 0 =>
    case 1 => ListHolds(v, s, POSITION, 0);
    case 2 => ListHolds(v, s, s.items.value, 1);
    case _ => ListHolds(v, s, s.items.value, 2);
  }

  lemma TypedGeometryHolds(geometryType: string, g: Value)
    requires geometryType in GEOMETRY_TYPES && Valid(g, GeometryTypeSchema(geometryType))
    ensures Geo.IsGeometry(g) && g.Dict? && Geo.TypeOf(g) == geometryType && Geo.HasCoordinates(g)
  {
    hide Valid, OneString, CoordinatesSchema;
    ObjectHolds(g, GeometryTypeSchema(geometryType));
    OneStringHolds(geometryType, g.entries["type"]);
    CoordinatesHold(geometryType, g.entries["coordinates"]);
  }

  /** A geometry that passes the schema is of one of the six types, the configured
      one if there is one, and one whose envelope the box filter can compute. */
  lemma ReceivedGeometry(geometryType: Option<string>, g: Value)
    requires Valid(g, GeometrySchema(geometryType))
    ensures Geo.IsGeometry(g) && g.Dict? && Geo.TypeOf(g) in GEOMETRY_TYPES && Geo.HasCoordinates(g)
    ensures geometryType.Some? && geometryType.value in GEOMETRY_TYPES ==> Geo.TypeOf(g) == geometryType.value
  {
    hide Valid, GeometryTypeSchema;
    if geometryType.Some? && geometryType.value in GEOMETRY_TYPES {
      TypedGeometryHolds(geometryType.value, g);
    } else {
      var alternatives := GeometrySchema(geometryType).oneOf;
      AlternativeHolds(g, GeometrySchema(geometryType));
      var i :| 0 <= i < |alternatives| && Valid(g, alternatives[i]);
      TypedGeometryHolds(GEOMETRY_TYPES[i], g);
    }
  }

  lemma AlternativeHolds(v: Value, s: Schema)
    requires Valid(v, s) && s.oneOf != []
    ensures exists i | 0 <= i < |s.oneOf| :: Valid(v, s.oneOf[i])
  {
  }

  // ---- Over whole histories ---------------------------------------------------------------------------

  /** Each write that came to `k` was checked, or not needed to be: a received body, a
      PATCH that fits the version it was applied to, or a delete. */
  ghost predicate ReceivedAt(config: CollectionConfig, k: Key, cs: seq<Commit>) {
    forall i | 0 <= i < |cs| && CommitKey(cs[i]) == k :: CameReceived(config, Lookup(Replay(cs[..i]), k), cs[i].req)
  }

  ghost predicate CameReceived(config: CollectionConfig, item: Option<Feature>, req: Request) {
    match req.op
    case Create(body) => Received(config, body)
    case Replace(_, body, _) => Received(config, body)
    case Update(_, patch, _) => item.Some? && IsPatch(patch) && PatchFits(config, item.value, patch)
    case Delete(_, _) => true
  }

  /** One such write keeps the item returnable. */
  lemma WriteKeepsReturnable(config: CollectionConfig, item: Option<Feature>, req: Request, stamp: Stamp)
    requires WellFormed(req) && CameReceived(config, item, req) && VisibilityAllowed(config, "public")
    requires item.Some? ==> Returnable(config, item.value) && CleanProperties(item.value)
    requires AtomicWrite(item, req, stamp).Ok?
    ensures Returnable(config, AtomicWrite(item, req, stamp).value)
    ensures Returnable(config, Stored(AtomicWrite(item, req, stamp).value))
  {
    hide Returnable, Received, Stored, PatchFits;
    var f := AtomicWrite(item, req, stamp).value;
    StoredIsReturnableToo(config, f);
    match req.op
    case Create(body) =>
      ReceivedIsBody(config, body);
      MadeFromBody(config, body, f);
    case Replace(_, body, _) =>
      ReceivedIsBody(config, body);
      ReturnableIsAllowed(config, item.value);
      MadeFromBody(config, body, f);
    case Update(_, _, _) => PatchedIsReturnableIff(config, item.value, req, stamp);
    case Delete(_, _) => SameGeoJson(config, item.value, f);
  }

  lemma SameGeoJson(config: CollectionConfig, f: Feature, g: Feature)
    requires Returnable(config, f) && g == f.(deleted := g.deleted, updatedAt := g.updatedAt)
    ensures Returnable(config, g)
  {
    assert ToGeoJson(f) == ToGeoJson(g);
  }

  lemma ReceivedBefore(config: CollectionConfig, k: Key, cs: seq<Commit>)
    requires cs != [] && ReceivedAt(config, k, cs)
    ensures ReceivedAt(config, k, Front(cs))
    ensures CommitKey(Final(cs)) == k ==> CameReceived(config, Lookup(Replay(Front(cs)), k), Final(cs).req)
  {
    hide CameReceived, Replay;
    forall i | 0 <= i < |Front(cs)| && CommitKey(Front(cs)[i]) == k
      ensures CameReceived(config, Lookup(Replay(Front(cs)[..i]), k), Front(cs)[i].req)
    {
      assert Front(cs)[..i] == cs[..i];
    }
  }

  lemma {:induction false} HistoryIsReturnable(config: CollectionConfig, k: Key, cs: seq<Commit>)
    requires Serial(cs) && ReceivedAt(config, k, cs) && VisibilityAllowed(config, "public")
    requires k in Replay(cs)
    ensures Returnable(config, Replay(cs)[k])
  {
    hide Returnable, Received, Stored, AtomicWrite, ReceivedAt, CameReceived;
    var front, c := Front(cs), Final(cs);
    ReceivedBefore(config, k, cs);
    if k in Replay(front) {
      HistoryIsReturnable(config, k, front);
    }
    if CommitKey(c) == k {
      TableIsSound(front);
      WriteKeepsReturnable(config, Lookup(Replay(front), k), c.req, c.stamp);
    }
  }

  /** In every state of every run, however the requests interleave: an item made by
      received bodies, fitting patches and deletes, under a collection that allows
      `public`, satisfies the returnable schema, and its envelope can be computed. */
  lemma RunIsReturnable(cfg: Config, run: seq<State>, n: nat, config: CollectionConfig, k: Key)
    requires IsRun(cfg, run) && n < |run| && k in run[n].table
    requires ReceivedAt(config, k, run[n].commits) && VisibilityAllowed(config, "public")
    ensures Returnable(config, run[n].table[k])
    ensures Geo.IsGeometry(run[n].table[k].geometry)
  {
    hide Returnable, IsRun, ReceivedAt;
    RunIsSerializable(cfg, run, n);
    HistoryIsReturnable(config, k, run[n].commits);
    ReturnableHolds(config, run[n].table[k]);
    ReceivedGeometry(config.geometryType, run[n].table[k].geometry);
  }

  // ---- A PATCH that breaks the schema ------------------------------------------------------------------

  /** A collection whose features need a name. */
  const NAMED := CollectionConfig("c", map["name" := PropertySchema("string", None, None, None, None, None)], ["name"],
                                  ["public", "members", "restricted"], Some("Point"), ["A"])

  const POINT := Dict(map["type" := Str("Point"), "coordinates" := List([Int(0), Int(0)])])
  const SENT := Dict(map["type" := Str("Feature"), "geometry" := POINT, "properties" := Dict(map["name" := Str("x")])])
  const UNNAMING := Dict(map["properties" := Dict(map["name" := Null])])

  lemma PointIsValid()
    ensures Valid(POINT, GeometrySchema(NAMED.geometryType))
  {
    var coordinates := POINT.entries["coordinates"];
    assert Valid(coordinates.items[0], Typed("number")) && Valid(coordinates.items[1], Typed("number"));
    assert Valid(coordinates, POSITION);
    OneStringHolds("Point", Str("Point"));
    ObjectHolds(POINT, GeometryTypeSchema("Point"));
    assert GEOMETRY_TYPES[0] == "Point";
  }

  lemma SentIsReceived()
    ensures Received(NAMED, SENT)
  {
    hide Valid, GeometrySchema;
    PointIsValid();
    StringHolds(Str("x"));
    NameSchema();
    var properties := map["name" := Str("x")];
    assert PropertiesHold(NAMED, true, properties);
    PropertiesObjectHolds(NAMED, true, Dict(properties));
    FeatureHolds(NAMED, true, SENT);
  }

  lemma NameSchema()
    ensures MemberSchema(NAMED, true, "name") == Some(Typed("string"))
  {
  }

  /** A feature created from a received body, returnable as it is, and the PATCH that
      leaves it without the name it must have. */
  lemma UnnamingBreaksSchema(created: Stamp, patched: Stamp)
    ensures Received(NAMED, SENT) && IsBody(SENT) && IsPatch(UNNAMING)
    ensures var f := NewFeature("A", "c", SENT, DEFAULT_VISIBILITY, created);
      var req := Request("A", "c", {"editor"}, Update(f.id, UNNAMING, f.etag));
      && Returnable(NAMED, f)
      && AtomicWrite(Some(f), req, patched).Ok? && MayUpdate(req.roles, UNNAMING)
      && !Returnable(NAMED, AtomicWrite(Some(f), req, patched).value)
  {
    hide Returnable, Received;
    SentIsReceived();
    CreatedIsReturnableIff(NAMED, SENT, "A", created);
    var f := NewFeature("A", "c", SENT, DEFAULT_VISIBILITY, created);
    var req := Request("A", "c", {"editor"}, Update(f.id, UNNAMING, f.etag));
    var merged := MP.Merged(Dict(f.properties), UNNAMING.entries["properties"]).entries;
    assert "organization" !in merged && "visibility" !in merged;
    PatchCanBreakSchema(NAMED, f, req, patched, "name");
  }
}
