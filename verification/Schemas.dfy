/** The JSON Schemas generated for a collection: what clients may send against
    what the service returns. */
module Schemas {
  import opened Json
  import opened Collections

  // ---- JSON Schema, as far as the generated schemas go -----------------------------------------

  /** A schema without alternatives has an empty `oneOf`. */
  datatype Schema = Schema(
    kind: Option<string>,
    enum: Option<seq<Value>>,
    required: set<string>,
    properties: map<string, Schema>,
    items: Option<Schema>,
    minItems: Option<nat>,
    maxItems: Option<nat>,
    minimum: Option<real>,
    maximum: Option<real>,
    minLength: Option<int>,
    maxLength: Option<int>,
    oneOf: seq<Schema>)

  const ANYTHING := Schema(None, None, {}, map[], None, None, None, None, None, None, None, [])

  /** A float with an integral value counts as an integer. */
  predicate HasKind(v: Value, kind: string) {
    || (kind == "object" && v.Dict?)
    || (kind == "array" && v.List?)
    || (kind == "string" && v.Str?)
    || (kind == "boolean" && v.Bool?)
    || (kind == "null" && v.Null?)
    || (kind == "number" && IsNumber(v))
    || (kind == "integer" && IsNumber(v) && AsReal(v) == AsReal(v).Floor as real)
  }

  /** Enumerated values are compared with numbers by value. */
  ghost predicate Enumerated(v: Value, values: seq<Value>) {
    exists i | 0 <= i < |values| :: SameUpToNumbers(values[i], v)
  }

  predicate WithinBounds(v: Value, s: Schema) {
    && (v.List? && s.minItems.Some? ==> s.minItems.value <= |v.items|)
    && (v.List? && s.maxItems.Some? ==> |v.items| <= s.maxItems.value)
    && (IsNumber(v) && s.minimum.Some? ==> s.minimum.value <= AsReal(v))
    && (IsNumber(v) && s.maximum.Some? ==> AsReal(v) <= s.maximum.value)
    && (v.Str? && s.minLength.Some? ==> s.minLength.value <= |v.s|)
    && (v.Str? && s.maxLength.Some? ==> |v.s| <= s.maxLength.value)
  }

  ghost predicate Valid(v: Value, s: Schema)
    decreases s, 1
  {
    && (s.kind.Some? ==> HasKind(v, s.kind.value))
    && (s.enum.Some? ==> Enumerated(v, s.enum.value))
    && WithinBounds(v, s)
    && MembersValid(v, s)
    && (v.List? && s.items.Some? ==> forall i | 0 <= i < |v.items| :: Valid(v.items[i], s.items.value))
    && (s.oneOf != [] ==> ValidForOne(v, s.oneOf))
  }

  ghost predicate MembersValid(v: Value, s: Schema)
    decreases s, 0
  {
    v.Dict? ==>
      && s.required <= v.entries.Keys
      && forall k | k in s.properties && k in v.entries :: Valid(v.entries[k], s.properties[k])
  }

  ghost predicate ValidForOne(v: Value, alternatives: seq<Schema>)
    decreases alternatives
  {
    exists i | 0 <= i < |alternatives| ::
      Valid(v, alternatives[i]) && forall j | 0 <= j < |alternatives| && j != i :: !Valid(v, alternatives[j])
  }

  // ---- Validity does not see the representation of numbers -------------------------------------------

  lemma {:induction false} SameIsSymmetric(a: Value, b: Value)
    requires SameUpToNumbers(a, b)
    ensures SameUpToNumbers(b, a)
  {
    match a
    case List(items) =>
      forall i | 0 <= i < |items| ensures SameUpToNumbers(b.items[i], items[i]) {
        SameIsSymmetric(items[i], b.items[i]);
      }
    case Dict(entries) =>
      forall k | k in entries ensures SameUpToNumbers(b.entries[k], entries[k]) {
        SameIsSymmetric(entries[k], b.entries[k]);
      }
    case _ =>
  }

  lemma {:induction false} SameIsTransitive(a: Value, b: Value, c: Value)
    requires SameUpToNumbers(a, b) && SameUpToNumbers(b, c)
    ensures SameUpToNumbers(a, c)
  {
    match a
    case List(items) =>
      forall i | 0 <= i < |items| ensures SameUpToNumbers(items[i], c.items[i]) {
        SameIsTransitive(items[i], b.items[i], c.items[i]);
      }
    case Dict(entries) =>
      forall k | k in entries ensures SameUpToNumbers(entries[k], c.entries[k]) {
        SameIsTransitive(entries[k], b.entries[k], c.entries[k]);
      }
    case _ =>
  }

  /** Values that differ only in how numbers are represented satisfy the same schemas. */
  lemma ValidUpToNumbers(v: Value, w: Value, s: Schema)
    requires SameUpToNumbers(v, w)
    ensures Valid(v, s) <==> Valid(w, s)
  {
    SameIsSymmetric(v, w);
    if Valid(v, s) {
      ValidForSame(v, w, s);
    }
    if Valid(w, s) {
      ValidForSame(w, v, s);
    }
  }

  lemma {:induction false} ValidForSame(v: Value, w: Value, s: Schema)
    requires SameUpToNumbers(v, w) && Valid(v, s)
    ensures Valid(w, s)
    decreases s, 1
  {
    hide MembersValid, ValidForOne;
    if s.enum.Some? {
      EnumeratedForSame(v, w, s.enum.value);
    }
    MembersForSame(v, w, s);
    if v.List? && s.items.Some? {
      forall i | 0 <= i < |w.items| ensures Valid(w.items[i], s.items.value) {
        ValidForSame(v.items[i], w.items[i], s.items.value);
      }
    }
    if s.oneOf != [] {
      OneForSame(v, w, s);
    }
  }

  lemma EnumeratedForSame(v: Value, w: Value, values: seq<Value>)
    requires SameUpToNumbers(v, w) && Enumerated(v, values)
    ensures Enumerated(w, values)
  {
    var i :| 0 <= i < |values| && SameUpToNumbers(values[i], v);
    SameIsTransitive(values[i], v, w);
  }

  lemma {:induction false} MembersForSame(v: Value, w: Value, s: Schema)
    requires SameUpToNumbers(v, w) && MembersValid(v, s)
    ensures MembersValid(w, s)
    decreases s, 0
  {
    if v.Dict? {
      forall k | k in s.properties && k in w.entries ensures Valid(w.entries[k], s.properties[k]) {
        ValidForSame(v.entries[k], w.entries[k], s.properties[k]);
      }
    }
  }

  lemma {:induction false} OneForSame(v: Value, w: Value, s: Schema)
    requires SameUpToNumbers(v, w) && ValidForOne(v, s.oneOf)
    ensures ValidForOne(w, s.oneOf)
    decreases s, 0
  {
    hide Valid;
    var i :| 0 <= i < |s.oneOf| && Valid(v, s.oneOf[i])
             && forall j | 0 <= j < |s.oneOf| && j != i :: !Valid(v, s.oneOf[j]);
    ValidForSame(v, w, s.oneOf[i]);
    forall j | 0 <= j < |s.oneOf| && j != i ensures !Valid(w, s.oneOf[j]) {
      if Valid(w, s.oneOf[j]) {
        SameIsSymmetric(v, w);
        ValidForSame(w, v, s.oneOf[j]);
      }
    }
  }

  // ---- The generated schemas --------------------------------------------------------------------------

  function Typed(kind: string): Schema {
    ANYTHING.(kind := Some(kind))
  }

  function OneString(s: string): Schema {
    Typed("string").(enum := Some([Str(s)]))
  }

  const POSITION := Typed("array").(minItems := Some(2), maxItems := Some(3), items := Some(Typed("number")))

  function ListOf(items: Schema): Schema {
    Typed("array").(items := Some(items))
  }

  function ListOfAtLeast(n: nat, items: Schema): Schema {
    ListOf(items).(minItems := Some(n))
  }

  const GEOMETRY_TYPES := ["Point", "MultiPoint", "LineString", "MultiLineString", "Polygon", "MultiPolygon"]

  function CoordinatesSchema(geometryType: string): Schema {
    if geometryType == "Point" then POSITION
    else if geometryType == "MultiPoint" then ListOf(POSITION)
    else if geometryType == "LineString" then ListOfAtLeast(2, POSITION)
    else if geometryType == "MultiLineString" then ListOf(ListOfAtLeast(2, POSITION))
    else if geometryType == "Polygon" then ListOf(ListOfAtLeast(4, POSITION))
    else ListOf(ListOf(ListOfAtLeast(4, POSITION)))
  }

  function GeometryTypeSchema(geometryType: string): Schema {
    Typed("object").(required := {"type", "coordinates"},
                     properties := map["type" := OneString(geometryType),
                                       "coordinates" := CoordinatesSchema(geometryType)])
  }

  /** One known type, or exactly one of all when none is given or it is unknown. */
  function GeometrySchema(geometryType: Option<string>): Schema {
    if geometryType.Some? && geometryType.value in GEOMETRY_TYPES then GeometryTypeSchema(geometryType.value)
    else
      var n := |GEOMETRY_TYPES|;
      ANYTHING.(oneOf := seq(n, i requires 0 <= i < n => GeometryTypeSchema(GEOMETRY_TYPES[i])))
  }

  function PropertySchemaOf(p: PropertySchema): Schema {
    Typed(p.kind).(enum := p.enum, minimum := p.minValue, maximum := p.maxValue,
                   minLength := p.minLength, maxLength := p.maxLength)
  }

  function Strings(values: seq<string>): (vs: seq<Value>)
    ensures |vs| == |values| && forall i | 0 <= i < |values| :: vs[i] == Str(values[i])
  {
    seq(|values|, i requires 0 <= i < |values| => Str(values[i]))
  }

  function VisibilitySchema(config: CollectionConfig): Schema {
    if config.visibilityValues == [] then Typed("string")
    else Typed("string").(enum := Some(Strings(config.visibilityValues)))
  }

  /** The schema of one member of `properties`, if it has one. */
  function MemberSchema(config: CollectionConfig, receivable: bool, name: string): Option<Schema> {
    if name == "visibility" then Some(VisibilitySchema(config))
    else if name == "organization" && !receivable then Some(Typed("string"))
    else if name in config.propertiesSchema then Some(PropertySchemaOf(config.propertiesSchema[name]))
    else None
  }

  method BuildPropertiesSchema(config: CollectionConfig, receivable: bool) returns (props: map<string, Schema>)
    ensures forall name :: name in props <==> MemberSchema(config, receivable, name).Some?
    ensures forall name | name in props :: Some(props[name]) == MemberSchema(config, receivable, name)
  {
    props := map[];
    var names := config.propertiesSchema.Keys;
    while names != {}
      invariant names <= config.propertiesSchema.Keys
      invariant props.Keys == config.propertiesSchema.Keys - names
      invariant forall name | name in props :: props[name] == PropertySchemaOf(config.propertiesSchema[name])
      decreases names
    {
      var name :| name in names;
      names := names - {name};
      props := props[name := PropertySchemaOf(config.propertiesSchema[name])];
    }
    if !receivable {
      props := props["organization" := Typed("string")];
    }
    var visibility := Typed("string");
    if config.visibilityValues != [] {
      visibility := visibility.(enum := Some(Strings(config.visibilityValues)));
    }
    props := props["visibility" := visibility];
  }

  function PropertiesObject(config: CollectionConfig, receivable: bool): Schema {
    var managed := if receivable then {"visibility"} else {"visibility", "organization"};
    Typed("object").(
      properties := map name | name in config.propertiesSchema.Keys + managed ::
        MemberSchema(config, receivable, name).value,
      required := (set name | name in config.requiredProperties)
        + if receivable then {} else {"organization", "visibility"})
  }

  function FeatureSchema(config: CollectionConfig, receivable: bool): Schema {
    var members := map[
      "type" := OneString("Feature"),
      "geometry" := GeometrySchema(config.geometryType),
      "properties" := PropertiesObject(config, receivable)];
    Typed("object").(
      required := {"type", "geometry", "properties"} + (if receivable then {} else {"id"}),
      properties := if receivable then members else members["id" := Typed("string")])
  }

  lemma PropertiesAre(config: CollectionConfig, receivable: bool, props: map<string, Schema>)
    requires forall name :: name in props <==> MemberSchema(config, receivable, name).Some?
    requires forall name | name in props :: Some(props[name]) == MemberSchema(config, receivable, name)
    ensures props == PropertiesObject(config, receivable).properties
  {
    var all := PropertiesObject(config, receivable).properties;
    forall name ensures name in props <==> name in all {
    }
    assert props.Keys == all.Keys;
  }

  lemma WithAndWithoutId(kind: Schema, id: Schema, geometry: Schema, properties: Schema)
    ensures var all := map["type" := kind, "id" := id, "geometry" := geometry, "properties" := properties];
      var some := map["type" := kind, "geometry" := geometry, "properties" := properties];
      all - {"id"} == some && all == some["id" := id]
  {
    var all := map["type" := kind, "id" := id, "geometry" := geometry, "properties" := properties];
    var some := map["type" := kind, "geometry" := geometry, "properties" := properties];
    assert (all - {"id"}).Keys == some.Keys;
    assert all.Keys == some["id" := id].Keys;
  }

  /** The generator edits one document in place: it sets `required`, and takes `id`
      out of what clients may send. */
  method GenerateSchema(config: CollectionConfig, receivable: bool) returns (schema: Schema)
    ensures schema == FeatureSchema(config, receivable)
  {
    hide GeometrySchema, OneString, MemberSchema;
    var props := BuildPropertiesSchema(config, receivable);
    var required := set name | name in config.requiredProperties;
    if !receivable {
      required := required + {"organization", "visibility"};
    }
    var propertiesObject := Typed("object").(properties := props, required := required);
    PropertiesAre(config, receivable, props);
    assert propertiesObject == PropertiesObject(config, receivable);
    schema := Typed("object").(
      required := {"type", "geometry", "properties"},
      properties := map[
        "type" := OneString("Feature"),
        "id" := Typed("string"),
        "geometry" := GeometrySchema(config.geometryType),
        "properties" := propertiesObject]);
    if receivable {
      schema := schema.(required := {"type", "geometry", "properties"}, properties := schema.properties - {"id"});
    } else {
      schema := schema.(required := {"type", "id", "geometry", "properties"});
    }
    WithAndWithoutId(OneString("Feature"), Typed("string"), GeometrySchema(config.geometryType), propertiesObject);
  }
}
