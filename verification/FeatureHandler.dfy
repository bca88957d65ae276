/** GET on one feature: the caller's context, the lookup and the ETag header. */
module FeatureHandler {
  import opened Json
  import opened Features
  import opened Auth
  import opened Collections
  import opened Writes
  import opened FeatureDal
  import opened Items
  import opened WriteHandlers

  /** A successful response: the GeoJSON and the ETag header. */
  datatype Response = Response(body: Value, etag: string)

  /** The organization whose feature is asked for: that of the token, or the one named,
      or the only one of the collection. Empty when there is none. */
  ghost function AskedOrganization(claim: Option<Claim>, loads: string -> Option<seq<string>>, organization: string,
                                   config: Option<CollectionConfig>): string
  {
    if claim.Some? then ExtractOrganization(ExtractGroups(claim.value, loads))
    else if organization != "" then organization
    else if config.Some? && |config.value.organizations| == 1 then config.value.organizations[0]
    else ""
  }

  /** Whether the caller may see a feature of the asked organization with the visibility. */
  ghost predicate MayGet(claim: Option<Claim>, loads: string -> Option<seq<string>>, asked: string,
                         visibility: string)
  {
    || visibility == "public"
    || (&& claim.Some?
        && var groups := ExtractGroups(claim.value, loads);
        && ((visibility == "members" &&
             (CarriesRole(groups, "admin") || CarriesRole(groups, "editor") || asked + ":members" in groups))
            || (visibility == "restricted" &&
                (CarriesRole(groups, "admin") || asked + ":restricted" in groups))))
  }

  /** An unknown collection matters only to a request without token and organization.
      Everybody else gets the feature exactly when it is stored for the organization,
      not deleted, and of a visibility the caller may see. */
  method HandleFeature(dal: FeatureDAL, config: Option<CollectionConfig>, collectionId: string, featureId: string,
                       claim: Option<Claim>, loads: string -> Option<seq<string>>, organization: string)
    returns (r: Result<Response, int>)
    requires config.Some? ==> config.value.collectionId == collectionId
    ensures claim.None? && organization == "" && config.None? ==> r == Err(404)
    ensures
      var asked := AskedOrganization(claim, loads, organization, config);
      var key := Key(asked + "#COLLECTION#" + collectionId, "FEATURE#" + featureId);
      if claim.Some? && (asked == "" || (organization != "" && organization != asked)) then r == Err(403)
      else if claim.None? && organization == "" && config.None? then r == Err(404)
      else if asked == "" then r == Err(400)
      else if key !in dal.features || dal.features[key].deleted
              || !MayGet(claim, loads, asked, dal.features[key].visibility) then r == Err(404)
      else r == Ok(Response(ToGeoJson(dal.features[key]), "\"" + dal.features[key].etag + "\""))
  {
    var auth := ResolveAuthContext(claim, loads, organization);
    if auth == Err(400) && organization == "" {
      if config.None? {
        return Err(404);
      }
      var default := DefaultOrganization(config.value);
      if default != "" {
        auth := ResolveAuthContext(claim, loads, default);
      }
    }
    if auth.Err? {
      return Err(auth.error);
    }
    var context := auth.value;
    LevelsGet(claim, loads, context);
    var feature := dal.GetFeature(collectionId, featureId, context.organization, context.visibilityFilter);
    if feature.Err? {
      return Err(404);
    }
    r := Ok(Response(ToGeoJson(feature.value), EtagHeader(feature.value.etag)));
  }

  lemma LevelsGet(claim: Option<Claim>, loads: string -> Option<seq<string>>, context: AuthContext)
    requires "public" in context.visibilityFilter && context.visibilityFilter <= {"public", "members", "restricted"}
    requires claim.None? ==> context.visibilityFilter == {"public"}
    requires claim.Some? ==>
      var groups := ExtractGroups(claim.value, loads);
      && ("members" in context.visibilityFilter <==>
            || CarriesRole(groups, "admin") || CarriesRole(groups, "editor")
            || context.organization + ":members" in groups)
      && ("restricted" in context.visibilityFilter <==>
            CarriesRole(groups, "admin") || context.organization + ":restricted" in groups)
    ensures forall visibility :: visibility in context.visibilityFilter <==>
      MayGet(claim, loads, context.organization, visibility)
  {
  }

  /** A collection may allow further levels; a feature that has one is shown to nobody. */
  lemma OtherLevelsAreHidden(claim: Option<Claim>, loads: string -> Option<seq<string>>, asked: string,
                             visibility: string)
    ensures (exists someone: Option<Claim> :: MayGet(someone, loads, asked, visibility)) <==>
      visibility in {"public", "members", "restricted"}
  {
    if visibility in {"public", "members", "restricted"} {
      var admin := Some(Native(["admin"]));
      assert "admin" in ["admin"];
      assert "admin" in ExtractGroups(admin.value, loads);
      CarriesMeans(ExtractGroups(admin.value, loads));
      assert MayGet(admin, loads, asked, visibility);
    }
  }

  /** The ETag header of a GET, sent back in a PUT or PATCH while nothing has changed,
      is neither missing nor stale, and in a DELETE it succeeds. */
  lemma EtagAllowsWrite(context: AuthContext, config: CollectionConfig, featureId: string, body: Option<Value>,
                        validates: bool, stored: Table, put: Result<Feature, int>, patch: Result<Feature, int>,
                        req: Request)
    requires var key := Key(context.organization + "#COLLECTION#" + config.collectionId, "FEATURE#" + featureId);
      && key in stored && !stored[key].deleted
      && var etag := stored[key].etag;
      && etag != "" && etag[0] != '"' && etag[|etag| - 1] != '"'
      && PutOutcome(context, Some(config), featureId, Some("\"" + etag + "\""), body, validates, stored, put, req)
      && PatchOutcome(context, Some(config), featureId, Some("\"" + etag + "\""), body, stored, patch, req)
    ensures put.Ok? || put.error in {400, 403, 422}
    ensures patch.Ok? || patch.error in {400, 403, 422}
  {
    hide NamesOther, IfMatch;
    var key := Key(context.organization + "#COLLECTION#" + config.collectionId, "FEATURE#" + featureId);
    EtagRoundTrip(stored[key].etag, "");
  }
}
