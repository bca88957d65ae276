/** What the generated schemas ask for, written out: the reference they are held against. */
module SchemaMeaning {
  import opened Json
  import opened Collections
  import opened Schemas
  import SA = SchemaAgreement

  // ---- Configured properties ------------------------------------------------------------

  /** The value has the type, is one of the enumerated values, and lies within the bounds. */
  ghost predicate Fits(p: PropertySchema, v: Value) {
    && (match p.kind
        case "string" => v.Str?
        case "boolean" => v.Bool?
        case "array" => v.List?
        case "object" => v.Dict?
        case "null" => v.Null?
        case "number" => v.Int? || v.Float? || v.Dec?
        case "integer" =>
          || v.Int?
          || (v.Float? && v.x == v.x.Floor as real)
          || (v.Dec? && v.d == v.d.Floor as real)
        case _ => false)
    && (p.enum.Some? ==> exists i | 0 <= i < |p.enum.value| :: SameUpToNumbers(p.enum.value[i], v))
    && (IsNumber(v) ==>
          && (p.minValue.Some? ==> p.minValue.value <= AsReal(v))
          && (p.maxValue.Some? ==> AsReal(v) <= p.maxValue.value))
    && (v.Str? ==>
          && (p.minLength.Some? ==> p.minLength.value <= |v.s|)
          && (p.maxLength.Some? ==> |v.s| <= p.maxLength.value))
  }

  lemma PropertyMeans(p: PropertySchema, v: Value)
    ensures Valid(v, PropertySchemaOf(p)) <==> Fits(p, v)
  {
  }

  // ---- Geometries -------------------------------------------------------------------------

  ghost predicate Position(v: Value) {
    && v.List?
    && 2 <= |v.items| <= 3
    && forall i | 0 <= i < |v.items| :: v.items[i].Int? || v.items[i].Float? || v.items[i].Dec?
  }

  /** At least `n` positions. */
  ghost predicate Line(v: Value, n: nat) {
    v.List? && |v.items| >= n && forall i | 0 <= i < |v.items| :: Position(v.items[i])
  }

  /** Lines of at least `n` positions each. */
  ghost predicate Lines(v: Value, n: nat) {
    v.List? && forall i | 0 <= i < |v.items| :: Line(v.items[i], n)
  }

  /** The coordinates a GeoJSON geometry of the type has. */
  ghost predicate CoordinatesFit(geometryType: string, v: Value) {
    match geometryType
    case "Point" => Position(v)
    case "MultiPoint" => Line(v, 0)
    case "LineString" => Line(v, 2)
    case "MultiLineString" => Lines(v, 2)
    case "Polygon" => Lines(v, 4)
    case "MultiPolygon" => v.List? && forall i | 0 <= i < |v.items| :: Lines(v.items[i], 4)
    case _ => false
  }

  /** A geometry of the configured type, or of any of the six when none of them is configured. */
  ghost predicate GeometryFits(geometryType: Option<string>, g: Value) {
    && g.Dict? && "type" in g.entries && "coordinates" in g.entries
    && g.entries["type"].Str?
    && var named := g.entries["type"].s;
    && named in {"Point", "MultiPoint", "LineString", "MultiLineString", "Polygon", "MultiPolygon"}
    && (geometryType.Some?
        && geometryType.value in {"Point", "MultiPoint", "LineString", "MultiLineString", "Polygon", "MultiPolygon"} ==>
          named == geometryType.value)
    && CoordinatesFit(named, g.entries["coordinates"])
  }

  lemma ListMeans(v: Value, n: nat, items: Schema)
    ensures Valid(v, ListOf(items)) <==> v.List? && forall i | 0 <= i < |v.items| :: Valid(v.items[i], items)
    ensures Valid(v, ListOfAtLeast(n, items)) <==>
      v.List? && n <= |v.items| && forall i | 0 <= i < |v.items| :: Valid(v.items[i], items)
  {
  }

  lemma PositionMeans(v: Value)
    ensures Valid(v, POSITION) <==> Position(v)
  {
    if v.List? {
      forall i | 0 <= i < |v.items| ensures Valid(v.items[i], Typed("number")) <==> IsNumber(v.items[i]) {
      }
    }
  }

  lemma LineMeans(v: Value, n: nat)
    ensures Valid(v, ListOfAtLeast(n, POSITION)) <==> Line(v, n)
    ensures Valid(v, ListOf(POSITION)) <==> Line(v, 0)
  {
    hide Valid, Position, POSITION;
    ListMeans(v, n, POSITION);
    if v.List? {
      forall i | 0 <= i < |v.items| ensures Valid(v.items[i], POSITION) <==> Position(v.items[i]) {
        PositionMeans(v.items[i]);
      }
    }
  }

  lemma LinesMean(v: Value, n: nat)
    ensures Valid(v, ListOf(ListOfAtLeast(n, POSITION))) <==> Lines(v, n)
  {
    hide Valid, Line, POSITION, ListOfAtLeast;
    ListMeans(v, 0, ListOfAtLeast(n, POSITION));
    if v.List? {
      forall i | 0 <= i < |v.items| ensures Valid(v.items[i], ListOfAtLeast(n, POSITION)) <==> Line(v.items[i], n) {
        LineMeans(v.items[i], n);
      }
    }
  }

  lemma PolygonsMean(v: Value)
    ensures Valid(v, ListOf(ListOf(ListOfAtLeast(4, POSITION)))) <==>
      v.List? && forall i | 0 <= i < |v.items| :: Lines(v.items[i], 4)
  {
    hide Valid, Lines, POSITION, ListOfAtLeast;
    var polygon := ListOf(ListOfAtLeast(4, POSITION));
    ListMeans(v, 0, polygon);
    if v.List? {
      forall i | 0 <= i < |v.items| ensures Valid(v.items[i], polygon) <==> Lines(v.items[i], 4) {
        LinesMean(v.items[i], 4);
      }
    }
  }

  lemma CoordinatesMean(geometryType: string, v: Value)
    requires geometryType in {"Point", "MultiPoint", "LineString", "MultiLineString", "Polygon", "MultiPolygon"}
    ensures Valid(v, CoordinatesSchema(geometryType)) <==> CoordinatesFit(geometryType, v)
  {
    hide Valid, POSITION, Position, Line, Lines, ListOf, ListOfAtLeast;
    match geometryType
    case "Point" => PositionMeans(v);
    case "MultiPoint" => LineMeans(v, 0);
    case "LineString" => LineMeans(v, 2);
    case "MultiLineString" => LinesMean(v, 2);
    case "Polygon" => LinesMean(v, 4);
    case "MultiPolygon" => PolygonsMean(v);
  }

  lemma TypesAre()
    ensures GEOMETRY_TYPES[0] == "Point" && GEOMETRY_TYPES[1] == "MultiPoint" && GEOMETRY_TYPES[2] == "LineString"
    ensures GEOMETRY_TYPES[3] == "MultiLineString" && GEOMETRY_TYPES[4] == "Polygon"
    ensures GEOMETRY_TYPES[5] == "MultiPolygon"
    ensures forall t: string :: t in GEOMETRY_TYPES <==>
      t in {"Point", "MultiPoint", "LineString", "MultiLineString", "Polygon", "MultiPolygon"}
  {
  }

  lemma TypedGeometryMeans(geometryType: string, g: Value)
    requires geometryType in GEOMETRY_TYPES
    ensures Valid(g, GeometryTypeSchema(geometryType)) <==> GeometryFits(Some(geometryType), g)
  {
    hide Valid, OneString, CoordinatesSchema, CoordinatesFit, GEOMETRY_TYPES;
    TypesAre();
    SA.ObjectHolds(g, GeometryTypeSchema(geometryType));
    if g.Dict? && "type" in g.entries && "coordinates" in g.entries {
      SA.OneStringHolds(geometryType, g.entries["type"]);
      CoordinatesMean(geometryType, g.entries["coordinates"]);
    }
  }

  /** With no type configured, or an unknown one, the alternatives exclude each other,
      so `exactly one` is `any`. */
  lemma GeometryMeans(geometryType: Option<string>, g: Value)
    ensures Valid(g, GeometrySchema(geometryType)) <==> GeometryFits(geometryType, g)
  {
    hide Valid, GeometryTypeSchema, CoordinatesFit, GEOMETRY_TYPES;
    TypesAre();
    if geometryType.Some? && geometryType.value in GEOMETRY_TYPES {
      TypedGeometryMeans(geometryType.value, g);
    } else {
      AnyTypeMeans(geometryType, g);
    }
  }

  lemma AnyTypeMeans(geometryType: Option<string>, g: Value)
    requires geometryType.None? || geometryType.value !in GEOMETRY_TYPES
    ensures Valid(g, GeometrySchema(geometryType)) <==> GeometryFits(geometryType, g)
  {
    hide Valid, GeometryTypeSchema, GeometryFits, GeometrySchema, ValidForOne, GEOMETRY_TYPES;
    var s := GeometrySchema(geometryType);
    OneOfHas(geometryType);
    OneOfMeans(g, s);
    forall i | 0 <= i < 6 ensures Valid(g, s.oneOf[i]) <==> GeometryFits(Some(GEOMETRY_TYPES[i]), g) {
      TypedGeometryMeans(GEOMETRY_TYPES[i], g);
    }
    if GeometryFits(geometryType, g) {
      var i := TypeNamed(geometryType, g);
      assert Valid(g, s.oneOf[i]);
    }
    forall i | 0 <= i < 6 && Valid(g, s.oneOf[i]) ensures GeometryFits(geometryType, g) {
      FitsAny(geometryType, g, i);
    }
  }

  /** A geometry that fits names one of the types, and fits no other. */
  lemma TypeNamed(geometryType: Option<string>, g: Value) returns (i: nat)
    requires geometryType.None? || geometryType.value !in GEOMETRY_TYPES
    requires GeometryFits(geometryType, g)
    ensures i < 6 == |GEOMETRY_TYPES| && GeometryFits(Some(GEOMETRY_TYPES[i]), g)
    ensures forall j | 0 <= j < 6 && j != i :: !GeometryFits(Some(GEOMETRY_TYPES[j]), g)
  {
    hide CoordinatesFit, GEOMETRY_TYPES;
    TypesAre();
    OneOfHas(geometryType);
    i :| 0 <= i < |GEOMETRY_TYPES| && GEOMETRY_TYPES[i] == g.entries["type"].s;
  }

  lemma FitsAny(geometryType: Option<string>, g: Value, i: nat)
    requires geometryType.None? || geometryType.value !in GEOMETRY_TYPES
    requires i < |GEOMETRY_TYPES| && GeometryFits(Some(GEOMETRY_TYPES[i]), g)
    ensures GeometryFits(geometryType, g)
  {
    hide CoordinatesFit, GEOMETRY_TYPES;
    TypesAre();
  }

  lemma OneOfHas(geometryType: Option<string>)
    requires geometryType.None? || geometryType.value !in GEOMETRY_TYPES
    ensures var s := GeometrySchema(geometryType);
      && s == ANYTHING.(oneOf := s.oneOf) && |s.oneOf| == |GEOMETRY_TYPES| == 6
      && forall i | 0 <= i < |s.oneOf| :: s.oneOf[i] == GeometryTypeSchema(GEOMETRY_TYPES[i])
    ensures forall i, j | 0 <= i < j < 6 :: GEOMETRY_TYPES[i] != GEOMETRY_TYPES[j]
  {
  }

  lemma OneOfMeans(v: Value, s: Schema)
    requires s == ANYTHING.(oneOf := s.oneOf) && s.oneOf != []
    ensures Valid(v, s) <==>
      exists i | 0 <= i < |s.oneOf| ::
        Valid(v, s.oneOf[i]) && forall j | 0 <= j < |s.oneOf| && j != i :: !Valid(v, s.oneOf[j])
  {
  }

  // ---- Features ---------------------------------------------------------------------------

  /** The organization a client sends is its own business, the one it gets is text. */
  ghost predicate MemberFits(config: CollectionConfig, receivable: bool, name: string, v: Value) {
    if name == "visibility" then v.Str? && (config.visibilityValues == [] || v.s in config.visibilityValues)
    else if name == "organization" && !receivable then v.Str?
    else name in config.propertiesSchema ==> Fits(config.propertiesSchema[name], v)
  }

  ghost predicate PropertiesFit(config: CollectionConfig, receivable: bool, properties: map<string, Value>) {
    && (forall name | name in config.requiredProperties :: name in properties)
    && (!receivable ==> "organization" in properties && "visibility" in properties)
    && forall name | name in properties :: MemberFits(config, receivable, name, properties[name])
  }

  /** What a client must send, and what it can rely on getting, in either case whatever
      other members there are. */
  lemma SchemaMeans(config: CollectionConfig, receivable: bool, v: Value)
    ensures Valid(v, FeatureSchema(config, receivable)) <==>
      && v.Dict? && "type" in v.entries && "geometry" in v.entries && "properties" in v.entries
      && v.entries["type"] == Str("Feature")
      && GeometryFits(config.geometryType, v.entries["geometry"])
      && v.entries["properties"].Dict?
      && PropertiesFit(config, receivable, v.entries["properties"].entries)
      && (!receivable ==> "id" in v.entries && v.entries["id"].Str?)
  {
    hide Valid, GeometryFits, FeatureSchema, SA.MemberHolds, MemberFits;
    SA.FeatureHolds(config, receivable, v);
    if v.Dict? && "geometry" in v.entries {
      GeometryMeans(config.geometryType, v.entries["geometry"]);
    }
    if v.Dict? && "properties" in v.entries {
      var properties := v.entries["properties"];
      SA.PropertiesObjectHolds(config, receivable, properties);
      if properties.Dict? {
        forall name | name in properties.entries
          ensures SA.MemberHolds(config, receivable, name, properties.entries[name]) <==>
            MemberFits(config, receivable, name, properties.entries[name])
        {
          MemberMeans(config, receivable, name, properties.entries[name]);
        }
      }
    }
  }

  lemma MemberMeans(config: CollectionConfig, receivable: bool, name: string, v: Value)
    ensures SA.MemberHolds(config, receivable, name, v) <==> MemberFits(config, receivable, name, v)
  {
    hide Valid, Fits, VisibilitySchema, PropertySchemaOf;
    if name == "visibility" {
      SA.VisibilityHolds(config, v);
    } else if name == "organization" && !receivable {
      SA.StringHolds(v);
    } else if name in config.propertiesSchema {
      PropertyMeans(config.propertiesSchema[name], v);
    }
  }
}
