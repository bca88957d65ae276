/** Envelopes of GeoJSON geometries and the bounding-box filter. */
module Geometry {
  import opened Json

  // ---- Geometries as JSON ------------------------------------------------------

  function TypeOf(g: Value): string
    requires g.Dict?
  {
    if "type" in g.entries && g.entries["type"].Str? then g.entries["type"].s else ""
  }

  /** How deep the positions lie inside `coordinates`; None for unknown types. */
  function Depth(geometryType: string): Option<nat> {
    if geometryType == "Point" then Some(0)
    else if geometryType == "MultiPoint" || geometryType == "LineString" then Some(1)
    else if geometryType == "MultiLineString" || geometryType == "Polygon" then Some(2)
    else if geometryType == "MultiPolygon" then Some(3)
    else None
  }

  predicate IsPosition(v: Value) {
    v.List? && |v.items| >= 2 && IsNumber(v.items[0]) && IsNumber(v.items[1])
  }

  predicate IsCoordinates(v: Value, depth: nat) {
    if depth == 0 then IsPosition(v)
    else v.List? && forall i | 0 <= i < |v.items| :: IsCoordinates(v.items[i], depth - 1)
  }

  /** What the service assumes of a geometry: nested lists of the depth its type
      calls for. Missing or null coordinates, missing `geometries` and unknown
      types are all allowed. */
  predicate IsGeometry(g: Value)
    decreases g
  {
    && g.Dict?
    && if TypeOf(g) == "GeometryCollection" then
         "geometries" in g.entries ==>
           && g.entries["geometries"].List?
           && forall i | 0 <= i < |g.entries["geometries"].items| :: IsGeometry(g.entries["geometries"].items[i])
       else
         HasCoordinates(g) ==> IsCoordinates(g.entries["coordinates"], Depth(TypeOf(g)).value)
  }

  predicate HasCoordinates(g: Value)
    requires g.Dict?
  {
    "coordinates" in g.entries && !g.entries["coordinates"].Null? && Depth(TypeOf(g)).Some?
  }

  function Members(g: Value): seq<Value>
    requires IsGeometry(g) && TypeOf(g) == "GeometryCollection"
    ensures forall i | 0 <= i < |Members(g)| :: IsGeometry(Members(g)[i]) && Members(g)[i] < g
  {
    if "geometries" in g.entries then g.entries["geometries"].items else []
  }

  // ---- Where a position occurs ---------------------------------------------------

  ghost predicate InCoordinates(v: Value, depth: nat, pos: Value)
    requires IsCoordinates(v, depth)
    decreases depth
  {
    if depth == 0 then v == pos
    else exists i | 0 <= i < |v.items| :: InCoordinates(v.items[i], depth - 1, pos)
  }

  /** `pos` is one of the positions of `g`, at any nesting. */
  ghost predicate Occurs(g: Value, pos: Value)
    requires IsGeometry(g)
    decreases g
  {
    if TypeOf(g) == "GeometryCollection" then
      "geometries" in g.entries &&
      exists i | 0 <= i < |g.entries["geometries"].items| :: Occurs(g.entries["geometries"].items[i], pos)
    else
      HasCoordinates(g) && InCoordinates(g.entries["coordinates"], Depth(TypeOf(g)).value, pos)
  }

  /** Type by type: where the positions of a geometry are. */
  lemma OccursMeans(g: Value, pos: Value)
    requires IsGeometry(g)
    ensures var geometryType := if "type" in g.entries && g.entries["type"].Str? then g.entries["type"].s else "";
      var present := "coordinates" in g.entries && !g.entries["coordinates"].Null?;
      var known := {"Point", "MultiPoint", "LineString", "MultiLineString", "Polygon", "MultiPolygon",
                    "GeometryCollection"};
      && (geometryType == "Point" && present ==> (Occurs(g, pos) <==> g.entries["coordinates"] == pos))
      && (geometryType in {"MultiPoint", "LineString"} && present ==>
            (Occurs(g, pos) <==> pos in g.entries["coordinates"].items))
      && (geometryType in {"MultiLineString", "Polygon"} && present ==>
            (Occurs(g, pos) <==>
               exists ring | ring in g.entries["coordinates"].items :: ring.List? && pos in ring.items))
      && (geometryType == "MultiPolygon" && present ==>
            (Occurs(g, pos) <==>
               exists polygon | polygon in g.entries["coordinates"].items ::
                 polygon.List? && exists ring | ring in polygon.items :: ring.List? && pos in ring.items))
      && (geometryType == "GeometryCollection" && "geometries" in g.entries ==>
            (Occurs(g, pos) <==>
               exists member | member in g.entries["geometries"].items :: IsGeometry(member) && Occurs(member, pos)))
      && (geometryType == "GeometryCollection" && "geometries" !in g.entries ==> !Occurs(g, pos))
      && (geometryType !in known ==> !Occurs(g, pos))
      && (geometryType != "GeometryCollection" && !present ==> !Occurs(g, pos))
  {
    if TypeOf(g) == "GeometryCollection" {
      if "geometries" in g.entries {
        var members := g.entries["geometries"].items;
        forall i | 0 <= i < |members| ensures members[i] in members && IsGeometry(members[i]) {
        }
      }
    } else if HasCoordinates(g) {
      var v, depth := g.entries["coordinates"], Depth(TypeOf(g)).value;
      if depth == 1 {
        LevelOne(v, pos);
      } else if depth == 2 {
        LevelTwo(v, pos);
      } else if depth == 3 {
        LevelThree(v, pos);
      }
    }
  }

  lemma LevelOne(v: Value, pos: Value)
    requires IsCoordinates(v, 1)
    ensures InCoordinates(v, 1, pos) <==> pos in v.items
  {
  }

  lemma LevelTwo(v: Value, pos: Value)
    requires IsCoordinates(v, 2)
    ensures InCoordinates(v, 2, pos) <==> exists ring | ring in v.items :: ring.List? && pos in ring.items
  {
    forall i | 0 <= i < |v.items|
      ensures v.items[i].List? && (InCoordinates(v.items[i], 1, pos) <==> pos in v.items[i].items)
    {
      LevelOne(v.items[i], pos);
    }
  }

  lemma LevelThree(v: Value, pos: Value)
    requires IsCoordinates(v, 3)
    ensures InCoordinates(v, 3, pos) <==>
      exists polygon | polygon in v.items ::
        polygon.List? && exists ring | ring in polygon.items :: ring.List? && pos in ring.items
  {
    forall i | 0 <= i < |v.items|
      ensures v.items[i].List? && (InCoordinates(v.items[i], 2, pos) <==>
        exists ring | ring in v.items[i].items :: ring.List? && pos in ring.items)
    {
      LevelTwo(v.items[i], pos);
    }
  }

  // ---- Extraction ----------------------------------------------------------------

  function Flatten(v: Value, depth: nat): (ps: seq<Value>)
    requires IsCoordinates(v, depth)
    ensures forall p | p in ps :: IsPosition(p)
    decreases depth, 1
  {
    if depth == 0 then [v] else FlattenAll(v.items, depth - 1)
  }

  function FlattenAll(vs: seq<Value>, depth: nat): (ps: seq<Value>)
    requires forall i | 0 <= i < |vs| :: IsCoordinates(vs[i], depth)
    ensures forall p | p in ps :: IsPosition(p)
    decreases depth, 2, |vs|
  {
    if vs == [] then [] else Flatten(vs[0], depth) + FlattenAll(vs[1..], depth)
  }

  function Positions(g: Value): (ps: seq<Value>)
    requires IsGeometry(g)
    ensures forall p | p in ps :: IsPosition(p)
    decreases g
  {
    if TypeOf(g) == "GeometryCollection" then
      (if "geometries" in g.entries then PositionsOfAll(g.entries["geometries"].items) else [])
    else if HasCoordinates(g) then Flatten(g.entries["coordinates"], Depth(TypeOf(g)).value)
    else []
  }

  function PositionsOfAll(gs: seq<Value>): (ps: seq<Value>)
    requires forall i | 0 <= i < |gs| :: IsGeometry(gs[i])
    ensures forall p | p in ps :: IsPosition(p)
    decreases gs
  {
    if gs == [] then [] else Positions(gs[0]) + PositionsOfAll(gs[1..])
  }

  lemma PositionsFrom(gs: seq<Value>, i: nat)
    requires forall j | 0 <= j < |gs| :: IsGeometry(gs[j])
    requires i < |gs|
    ensures PositionsOfAll(gs[i..]) == Positions(gs[i]) + PositionsOfAll(gs[i + 1..])
  {
    assert gs[i..][0] == gs[i] && gs[i..][1..] == gs[i + 1..];
  }

  lemma PositionsOfCollection(g: Value)
    requires IsGeometry(g) && TypeOf(g) == "GeometryCollection"
    ensures Positions(g) == PositionsOfAll(Members(g))
  {
  }

  method ExtractAllPositions(g: Value) returns (positions: seq<Value>)
    requires IsGeometry(g)
    ensures positions == Positions(g)
    decreases g
  {
    hide Flatten, FlattenAll, IsCoordinates, Depth;
    if TypeOf(g) == "GeometryCollection" {
      positions := [];
      var geometries := Members(g);
      for i := 0 to |geometries|
        invariant positions + PositionsOfAll(geometries[i..]) == PositionsOfAll(geometries)
      {
        var more := ExtractAllPositions(geometries[i]);
        PositionsFrom(geometries, i);
        positions := positions + more;
      }
      assert geometries[|geometries|..] == [];
      PositionsOfCollection(g);
    } else if HasCoordinates(g) {
      positions := Flatten(g.entries["coordinates"], Depth(TypeOf(g)).value);
    } else {
      positions := [];
    }
  }

  lemma {:induction false} FlattenHasWhatOccurs(v: Value, depth: nat, pos: Value)
    requires IsCoordinates(v, depth)
    ensures pos in Flatten(v, depth) <==> InCoordinates(v, depth, pos)
    decreases depth, 1
  {
    if depth > 0 {
      FlattenAllHasWhatOccurs(v.items, depth - 1, pos);
    }
  }

  lemma {:induction false} FlattenAllHasWhatOccurs(vs: seq<Value>, depth: nat, pos: Value)
    requires forall i | 0 <= i < |vs| :: IsCoordinates(vs[i], depth)
    ensures pos in FlattenAll(vs, depth) <==> exists i | 0 <= i < |vs| :: InCoordinates(vs[i], depth, pos)
    decreases depth, 2, |vs|
  {
    if vs != [] {
      FlattenHasWhatOccurs(vs[0], depth, pos);
      FlattenAllHasWhatOccurs(vs[1..], depth, pos);
      if i :| 0 <= i < |vs| && InCoordinates(vs[i], depth, pos) {
        assert i == 0 || vs[i] == vs[1..][i - 1];
      }
      if i :| 0 <= i < |vs[1..]| && InCoordinates(vs[1..][i], depth, pos) {
        assert vs[i + 1] == vs[1..][i];
      }
    }
  }

  /** The extracted list holds exactly the positions of the geometry. */
  lemma {:induction false} PositionsHasWhatOccurs(g: Value, pos: Value)
    requires IsGeometry(g)
    ensures pos in Positions(g) <==> Occurs(g, pos)
    decreases g
  {
    if TypeOf(g) == "GeometryCollection" {
      if "geometries" in g.entries {
        PositionsOfAllHasWhatOccurs(g.entries["geometries"].items, pos);
      }
    } else if HasCoordinates(g) {
      FlattenHasWhatOccurs(g.entries["coordinates"], Depth(TypeOf(g)).value, pos);
    }
  }

  lemma {:induction false} PositionsOfAllHasWhatOccurs(gs: seq<Value>, pos: Value)
    requires forall i | 0 <= i < |gs| :: IsGeometry(gs[i])
    ensures pos in PositionsOfAll(gs) <==> exists i | 0 <= i < |gs| :: Occurs(gs[i], pos)
    decreases gs
  {
    if gs != [] {
      PositionsHasWhatOccurs(gs[0], pos);
      PositionsOfAllHasWhatOccurs(gs[1..], pos);
      if i :| 0 <= i < |gs| && Occurs(gs[i], pos) {
        assert i == 0 || gs[i] == gs[1..][i - 1];
      }
      if i :| 0 <= i < |gs[1..]| && Occurs(gs[1..][i], pos) {
        assert gs[i + 1] == gs[1..][i];
      }
    }
  }

  // ---- Envelope ----------------------------------------------------------------

  datatype Box = Box(west: real, south: real, east: real, north: real)

  function Lon(pos: Value): real
    requires IsPosition(pos)
  {
    AsReal(pos.items[0])
  }

  function Lat(pos: Value): real
    requires IsPosition(pos)
  {
    AsReal(pos.items[1])
  }

  function Min(xs: seq<real>): (m: real)
    requires xs != []
    ensures m in xs && forall x | x in xs :: m <= x
  {
    if |xs| == 1 then xs[0]
    else
      var m := Min(xs[1..]);
      assert xs == [xs[0]] + xs[1..];
      if xs[0] <= m then xs[0] else m
  }

  function Max(xs: seq<real>): (m: real)
    requires xs != []
    ensures m in xs && forall x | x in xs :: x <= m
  {
    if |xs| == 1 then xs[0]
    else
      var m := Max(xs[1..]);
      assert xs == [xs[0]] + xs[1..];
      if m <= xs[0] then xs[0] else m
  }

  function Lons(ps: seq<Value>): (xs: seq<real>)
    requires forall p | p in ps :: IsPosition(p)
    ensures |xs| == |ps| && forall i | 0 <= i < |ps| :: ps[i] in ps && xs[i] == Lon(ps[i])
  {
    seq(|ps|, i requires 0 <= i < |ps| => Lon(ps[i]))
  }

  function Lats(ps: seq<Value>): (ys: seq<real>)
    requires forall p | p in ps :: IsPosition(p)
    ensures |ys| == |ps| && forall i | 0 <= i < |ps| :: ps[i] in ps && ys[i] == Lat(ps[i])
  {
    seq(|ps|, i requires 0 <= i < |ps| => Lat(ps[i]))
  }

  function EnvelopeOf(ps: seq<Value>): Option<Box>
    requires forall p | p in ps :: IsPosition(p)
  {
    if ps == [] then None
    else Some(Box(Min(Lons(ps)), Min(Lats(ps)), Max(Lons(ps)), Max(Lats(ps))))
  }

  /** None when the geometry has no positions. */
  function Envelope(g: Value): Option<Box>
    requires IsGeometry(g)
  {
    EnvelopeOf(Positions(g))
  }

  ghost predicate InBox(b: Box, x: real, y: real) {
    b.west <= x <= b.east && b.south <= y <= b.north
  }

  ghost predicate HasLon(g: Value, x: real)
    requires IsGeometry(g)
  {
    exists p :: Occurs(g, p) && IsPosition(p) && Lon(p) == x
  }

  ghost predicate HasLat(g: Value, y: real)
    requires IsGeometry(g)
  {
    exists p :: Occurs(g, p) && IsPosition(p) && Lat(p) == y
  }

  lemma EnvelopeOfIsTight(ps: seq<Value>)
    requires ps != [] && forall p | p in ps :: IsPosition(p)
    ensures forall p | p in ps :: InBox(EnvelopeOf(ps).value, Lon(p), Lat(p))
    ensures var b := EnvelopeOf(ps).value;
      && (exists p :: p in ps && Lon(p) == b.west) && (exists p :: p in ps && Lon(p) == b.east)
      && (exists p :: p in ps && Lat(p) == b.south) && (exists p :: p in ps && Lat(p) == b.north)
  {
    var lons, lats := Lons(ps), Lats(ps);
    forall p | p in ps ensures Lon(p) in lons && Lat(p) in lats {
      var i :| 0 <= i < |ps| && ps[i] == p;
      assert lons[i] == Lon(p) && lats[i] == Lat(p);
    }
  }

  lemma LonOccurs(g: Value, pos: Value)
    requires IsGeometry(g) && pos in Positions(g)
    ensures HasLon(g, Lon(pos)) && HasLat(g, Lat(pos))
  {
    PositionsHasWhatOccurs(g, pos);
  }

  lemma OccursInEnvelope(g: Value, pos: Value)
    requires IsGeometry(g) && Occurs(g, pos)
    ensures Envelope(g).Some? && IsPosition(pos) && InBox(Envelope(g).value, Lon(pos), Lat(pos))
  {
    PositionsHasWhatOccurs(g, pos);
    EnvelopeOfIsTight(Positions(g));
  }

  /** The envelope holds every position, longitude first, and each of its sides is
      attained; it is absent exactly when there are no positions. */
  lemma EnvelopeIsTight(g: Value)
    requires IsGeometry(g)
    ensures Envelope(g).None? <==> forall p :: !Occurs(g, p)
    ensures forall p | Occurs(g, p) :: p.List? && |p.items| >= 2 && IsNumber(p.items[0]) && IsNumber(p.items[1])
    ensures Envelope(g).Some? ==>
      var b := Envelope(g).value;
      && (forall p | Occurs(g, p) :: b.west <= AsReal(p.items[0]) <= b.east && b.south <= AsReal(p.items[1]) <= b.north)
      && (exists p :: Occurs(g, p) && AsReal(p.items[0]) == b.west)
      && (exists p :: Occurs(g, p) && AsReal(p.items[0]) == b.east)
      && (exists p :: Occurs(g, p) && AsReal(p.items[1]) == b.south)
      && (exists p :: Occurs(g, p) && AsReal(p.items[1]) == b.north)
  {
    forall p | Occurs(g, p)
      ensures Envelope(g).Some? && IsPosition(p) && InBox(Envelope(g).value, Lon(p), Lat(p))
    {
      OccursInEnvelope(g, p);
    }
    var ps := Positions(g);
    if ps != [] {
      EnvelopeOfIsTight(ps);
      PositionsHasWhatOccurs(g, ps[0]);
      forall p | p in ps ensures HasLon(g, Lon(p)) && HasLat(g, Lat(p)) {
        LonOccurs(g, p);
      }
    }
  }

  // ---- Bounding-box filter -------------------------------------------------------

  /** The test the filter applies to one geometry; `Null` is a feature without one. */
  predicate Kept(geometry: Value, box: Box)
    requires geometry.Null? || IsGeometry(geometry)
  {
    && !geometry.Null?
    && var e := Envelope(geometry);
    && e.Some?
    && e.value.west <= box.east && e.value.east >= box.west
    && e.value.south <= box.north && e.value.north >= box.south
  }

  /** For a proper query box, kept means that envelope and box share a point. */
  lemma KeptIffBoxesMeet(g: Value, box: Box)
    requires IsGeometry(g)
    requires box.west <= box.east && box.south <= box.north
    ensures Kept(g, box) <==> Envelope(g).Some? && exists x, y :: InBox(Envelope(g).value, x, y) && InBox(box, x, y)
    ensures Kept(g, box) <==>
      && Envelope(g).Some?
      && var e := Envelope(g).value;
      && box.west <= e.east && e.west <= box.east && box.south <= e.north && e.south <= box.north
  {
    EnvelopeIsTight(g);
    if Kept(g, box) {
      var e := Envelope(g).value;
      var p :| Occurs(g, p);
      var x := if e.west < box.west then box.west else e.west;
      var y := if e.south < box.south then box.south else e.south;
      assert InBox(e, x, y) && InBox(box, x, y);
    }
  }

  // A convex combination of positions: a position itself, a point of a segment
  // between two of them, or a point inside a ring.

  ghost function Sum(ws: seq<real>): real {
    if ws == [] then 0.0 else ws[0] + Sum(ws[1..])
  }

  ghost function Times(a: real, b: real): real {
    a * b
  }

  ghost function Dot(ws: seq<real>, xs: seq<real>): real
    requires |ws| == |xs|
  {
    if ws == [] then 0.0 else Times(ws[0], xs[0]) + Dot(ws[1..], xs[1..])
  }

  lemma WeightedStep(w: real, x: real, rest: real, dot: real, lo: real, hi: real)
    requires w >= 0.0 && lo <= x <= hi && Times(rest, lo) <= dot <= Times(rest, hi)
    ensures Times(w + rest, lo) <= Times(w, x) + dot <= Times(w + rest, hi)
  {
    assert (w + rest) * lo == w * lo + rest * lo && (w + rest) * hi == w * hi + rest * hi;
    assert w * lo <= w * x <= w * hi;
  }

  lemma TimesUnits(x: real)
    ensures Times(0.0, x) == 0.0 && Times(1.0, x) == x
  {
  }

  lemma {:induction false} DotBetween(ws: seq<real>, xs: seq<real>, lo: real, hi: real)
    requires |ws| == |xs|
    requires forall i | 0 <= i < |ws| :: ws[i] >= 0.0
    requires forall i | 0 <= i < |xs| :: lo <= xs[i] <= hi
    ensures Times(Sum(ws), lo) <= Dot(ws, xs) <= Times(Sum(ws), hi)
  {
    hide Times;
    if ws == [] {
      TimesUnits(lo);
      TimesUnits(hi);
    } else {
      DotBetween(ws[1..], xs[1..], lo, hi);
      WeightedStep(ws[0], xs[0], Sum(ws[1..]), Dot(ws[1..], xs[1..]), lo, hi);
    }
  }

  ghost predicate Weights(ws: seq<real>) {
    Sum(ws) == 1.0 && forall i | 0 <= i < |ws| :: ws[i] >= 0.0
  }

  lemma WeightedBetween(ws: seq<real>, xs: seq<real>, lo: real, hi: real)
    requires |ws| == |xs| && Weights(ws)
    requires forall i | 0 <= i < |xs| :: lo <= xs[i] <= hi
    ensures lo <= Dot(ws, xs) <= hi
  {
    hide Times, Sum, Dot;
    DotBetween(ws, xs, lo, hi);
    TimesUnits(lo);
    TimesUnits(hi);
  }

  /** No geometry whose convex hull meets the box is dropped: in particular none
      with a position, a line segment or a ring interior meeting it. */
  lemma HullMeetingBoxIsKept(g: Value, box: Box, ps: seq<Value>, ws: seq<real>)
    requires IsGeometry(g)
    requires |ps| == |ws| && Weights(ws)
    requires forall p | p in ps :: IsPosition(p) && Occurs(g, p)
    requires InBox(box, Dot(ws, Lons(ps)), Dot(ws, Lats(ps)))
    ensures Kept(g, box)
  {
    assert ps != [] by { assert Sum([]) == 0.0; }
    OccursInEnvelope(g, ps[0]);
    var e := Envelope(g).value;
    forall p | p in ps ensures InBox(e, Lon(p), Lat(p)) {
      OccursInEnvelope(g, p);
    }
    WeightedBetween(ws, Lons(ps), e.west, e.east);
    WeightedBetween(ws, Lats(ps), e.south, e.north);
  }
}
