/** GET on the items of a collection: its parameters, the caller's context, the
    page and its links. */
module Items {
  import opened Json
  import opened Features
  import opened Auth
  import opened Collections
  import opened Query
  import opened Paging
  import Geo = Geometry

  // ---- Parameters -------------------------------------------------------------------------

  /** A parameter that has to be parsed. */
  datatype Raw<+T> = Missing | Unparsable | Parsed(value: T)

  /** The query parameters; an empty organization stands for none. `properties` are
      those that are not reserved. */
  datatype Params = Params(
    limit: Raw<int>,
    cursor: Option<string>,
    organization: string,
    bbox: Raw<Geo.Box>,
    properties: map<string, string>)

  /** No unknown parameter, and none that cannot be parsed. */
  predicate ParamsValid(params: Params, config: CollectionConfig) {
    && params.properties.Keys <= config.propertiesSchema.Keys
    && !params.limit.Unparsable? && !params.bbox.Unparsable?
  }

  function BoxIn(params: Params): Option<Geo.Box> {
    if params.bbox.Parsed? then Some(params.bbox.value) else None
  }

  const DEFAULT_LIMIT := 10
  const MAX_LIMIT := 1000

  function ParseLimit(raw: Raw<int>): (limit: nat)
    ensures 1 <= limit <= MAX_LIMIT
    ensures raw.Missing? ==> limit == 10
    ensures raw.Parsed? && 1 <= raw.value <= 1000 ==> limit == raw.value
    ensures raw.Parsed? && raw.value < 1 ==> limit == 1
    ensures raw.Parsed? && raw.value > 1000 ==> limit == 1000
  {
    match raw
    case Parsed(n) => if n < 1 then 1 else if n > MAX_LIMIT then MAX_LIMIT else n
    case _ => DEFAULT_LIMIT
  }

  // ---- The caller's context -----------------------------------------------------------------

  function DefaultOrganization(config: CollectionConfig): string {
    if |config.organizations| == 1 then config.organizations[0] else ""
  }

  /** With a token the collection plays no part. Without one the request sees what is
      public of the organization it names, or else of the collection's only one. */
  ghost function ItemsContext(claim: Option<Claim>, loads: string -> Option<seq<string>>,
                              organization: string, config: CollectionConfig): Result<AuthContext, int>
  {
    if claim.Some? then ContextOf(ExtractGroups(claim.value, loads), organization)
    else
      var named := if organization != "" then organization else DefaultOrganization(config);
      if named == "" then Err(400) else Ok(AuthContext(false, {}, named, {"public"}, {}))
  }

  method ResolveItemsContext(claim: Option<Claim>, loads: string -> Option<seq<string>>,
                             organization: string, config: CollectionConfig) returns (r: Result<AuthContext, int>)
    ensures claim.None? ==>
      if organization != "" then r == Ok(AuthContext(false, {}, organization, {"public"}, {}))
      else if |config.organizations| == 1 && config.organizations[0] != "" then
        r == Ok(AuthContext(false, {}, config.organizations[0], {"public"}, {}))
      else r == Err(400)
    ensures claim.Some? ==>
      var organization' := ExtractOrganization(ExtractGroups(claim.value, loads));
      if organization' == "" || (organization != "" && organization != organization') then r == Err(403)
      else r.Ok? && r.value.authenticated && r.value.organization == organization'
    ensures r == ItemsContext(claim, loads, organization, config)
  {
    r := ResolveAuthContext(claim, loads, organization);
    if r == Err(400) && organization == "" {
      var default := DefaultOrganization(config);
      if default != "" {
        r := ResolveAuthContext(claim, loads, default);
      }
    }
  }

  /** Naming the organization that was resolved, as a `next` link does, resolves
      to the very same context; and no context is without one or sees nothing. */
  lemma LinkKeepsContext(claim: Option<Claim>, loads: string -> Option<seq<string>>,
                         organization: string, config: CollectionConfig)
    requires ItemsContext(claim, loads, organization, config).Ok?
    ensures var context := ItemsContext(claim, loads, organization, config).value;
      && context.organization != ""
      && "public" in context.visibilityFilter
      && ItemsContext(claim, loads, context.organization, config) == Ok(context)
  {
    assert ALL_VISIBILITY_LEVELS[0] == "public";
  }

  // ---- The handler -----------------------------------------------------------------------------

  /** A link of the response. Only a `next` link carries parameters. */
  datatype Link = Link(rel: string, cursor: Option<string>, organization: string)

  datatype Page = Page(features: seq<Value>, links: seq<Link>, numberReturned: nat, numberMatched: Option<nat>)

  function GeoJsons(features: seq<Feature>): (vs: seq<Value>)
    ensures |vs| == |features| && forall i | 0 <= i < |features| :: vs[i] == ToGeoJson(features[i])
  {
    seq(|features|, i requires 0 <= i < |features| => ToGeoJson(features[i]))
  }

  function FilterOf(context: AuthContext, params: Params): Filter {
    Filter(context.visibilityFilter, params.properties, BoxIn(params))
  }

  /** The first `next` link among the links. */
  function FirstNext(links: seq<Link>): Option<Link> {
    if links == [] then None
    else if links[0].rel == "next" then Some(links[0])
    else FirstNext(links[1..])
  }

  lemma LinkIsFound(before: Link, next: Link, after: Link)
    requires before.rel != "next" && next.rel == "next" && after.rel != "next"
    ensures FirstNext([before, next, after]) == Some(next)
    ensures FirstNext([before, after]) == None
  {
    assert [before, next, after][1..] == [next, after];
    assert [after][1..] == [] && FirstNext([after]) == FirstNext([]) == None;
    assert [before, after][1..] == [after];
  }

  /** The page answers the request: it is one call of the query in the caller's
      context, its `next` link carries the cursor and the organization, and
      `numberMatched` is what a count that was not cut short has counted. */
  ghost predicate Answers(world: World, config: CollectionConfig, params: Params, context: AuthContext, page: Page,
                          call: Call, t2: nat, countCapped: bool, counted: seq<Feature>)
  {
    var pk, q := MakePk(context.organization, config.collectionId), FilterOf(context, params);
    && CallOk(world, pk, q, params.cursor, call)
    && call.limit == ParseLimit(params.limit)
    && page.features == GeoJsons(call.features)
    && page.numberReturned == |page.features|
    && FirstNext(page.links) == (if call.next.Some? then Some(Link("next", call.next, context.organization)) else None)
    && (page.numberMatched.Some? <==> BoxIn(params).None?)
    && (BoxIn(params).None? && !countCapped ==>
          && page.numberMatched == Some(|counted|)
          && Progress(world, call.a, t2, pk, params.cursor, q, counted, params.cursor, true))
  }

  method HandleItems(world: World, serving: Serving, t0: nat, config: Option<CollectionConfig>, params: Params,
                     claim: Option<Claim>, loads: string -> Option<seq<string>>)
    returns (r: Result<Page, int>, t2: nat, ghost call: Call, ghost marks: seq<string>,
             ghost countCapped: bool, ghost counted: seq<Feature>)
    requires SoundWorld(world) && GeometriesOk(world, BoxIn(params))
    ensures config.None? ==> r == Err(404)
    ensures config.Some? && (params.limit.Unparsable? || params.bbox.Unparsable?) ==> r == Err(400)
    ensures forall name | name in params.properties ::
      config.Some? && name !in config.value.propertiesSchema ==> r == Err(400)
    ensures
      && config.Some? && !params.limit.Unparsable? && !params.bbox.Unparsable?
      && (forall name | name in params.properties :: name in config.value.propertiesSchema) ==>
      match ItemsContext(claim, loads, params.organization, config.value)
      case Err(status) => r == Err(status)
      case Ok(context) =>
        var pk := context.organization + "#COLLECTION#" + config.value.collectionId;
        var q := Filter(context.visibilityFilter, params.properties,
                        if params.bbox.Parsed? then Some(params.bbox.value) else None);
        && pk == MakePk(context.organization, config.value.collectionId) && q == FilterOf(context, params)
        && r.Ok? && call.b <= t2
        && Answers(world, config.value, params, context, r.value, call, t2, countCapped, counted)
        && call == CallOf(world, t0, pk, params.cursor, q, ParseLimit(params.limit), serving)
        && (call.capped ==> CapSpent(world, call.a, call.b, pk, params.cursor, q, call.features, marks))
  {
    hide ItemsContext, PageOk, CapSpent, Progress, ToGeoJson, CallOf;
    t2, countCapped, counted, marks := t0, false, [], [];
    call := Call(t0, t0, 1, [], None, false);
    if config.None? {
      return Err(404), t2, call, marks, countCapped, counted;
    }
    if !ParamsValid(params, config.value) {
      return Err(400), t2, call, marks, countCapped, counted;
    }
    var limit := ParseLimit(params.limit);
    var context := ResolveItemsContext(claim, loads, params.organization, config.value);
    if context.Err? {
      return Err(context.error), t2, call, marks, countCapped, counted;
    }
    var organization := context.value.organization;
    LinkKeepsContext(claim, loads, params.organization, config.value);
    var t1: nat;
    var result: QueryResult;
    ghost var capped: bool;
    result, t1, t2, capped, marks, countCapped, counted :=
      QueryFeatures(world, serving, t0, config.value.collectionId, organization, limit, params.cursor,
                    FilterOf(context.value, params));
    call := Call(t0, t1, limit, result.features, result.nextCursor, capped);

    var features := GeoJsons(result.features);
    var links := [Link("self", None, "")];
    if result.nextCursor.Some? {
      links := links + [Link("next", result.nextCursor, organization)];
    }
    links := links + [Link("collection", None, "")];
    ghost var next := Link("next", result.nextCursor, organization);
    LinkIsFound(Link("self", None, ""), next, Link("collection", None, ""));
    assert FirstNext(links) == if result.nextCursor.Some? then Some(next) else None;
    r := Ok(Page(features, links, |features|, result.numberMatched));
  }
}
