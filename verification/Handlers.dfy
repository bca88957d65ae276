/** The write handlers, uninterrupted: who may do what, in which order the requests
    are refused, and what an accepted one does to the tables. */
module WriteHandlers {
  import opened Json
  import opened Features
  import opened Auth
  import opened Collections
  import opened Writes
  import opened FeatureDal
  import opened Protocol
  import opened ProtocolSolo
  import SA = SchemaAgreement

  // ---- ETag headers ----------------------------------------------------------------------------

  predicate IsQuote(c: char) {
    c == '"'
  }

  /** The ETag header of a response. */
  function EtagHeader(etag: string): string {
    "\"" + etag + "\""
  }

  /** The ETag an If-Match header names; None when it is missing or names nothing. */
  function IfMatch(header: Option<string>): Option<string> {
    if header.None? then None
    else
      var etag := Strip(Strip(header.value, IsSpace), IsQuote);
      if etag == "" then None else Some(etag)
  }

  /** Sending back the ETag header of a response names the ETag it carried, as the
      client sends it or with blanks around it. */
  lemma EtagRoundTrip(etag: string, blanks: string)
    requires etag != "" && etag[0] != '"' && etag[|etag| - 1] != '"'
    requires forall c | c in blanks :: IsSpace(c)
    ensures EtagHeader(etag) == "\"" + etag + "\""
    ensures IfMatch(Some("\"" + etag + "\"")) == Some(etag)
    ensures IfMatch(Some(blanks + "\"" + etag + "\"")) == Some(etag)
  {
    var header := EtagHeader(etag);
    assert blanks + "\"" + etag + "\"" == blanks + header;
    assert header[0] == '"' && header[|header| - 1] == '"';
    StripKeeps(header, IsSpace);
    StripBlanks(blanks, header);
    StripUnquotes(etag);
  }

  /** A header that is missing, empty or two quotes names nothing, and a bare ETag itself. */
  lemma OtherIfMatches(etag: string)
    requires etag != "" && etag[0] != '"' && etag[|etag| - 1] != '"'
    requires !IsSpace(etag[0]) && !IsSpace(etag[|etag| - 1])
    ensures IfMatch(None) == None && IfMatch(Some("")) == None && IfMatch(Some("\"\"")) == None
    ensures IfMatch(Some(etag)) == Some(etag)
  {
    StripKeeps(etag, IsSpace);
    StripKeeps(etag, IsQuote);
    StripKeeps("\"\"", IsSpace);
    assert "\"\""[1..] == "\"" && "\""[1..] == "";
    assert StripLeft("\"\"", IsQuote) == StripLeft("\"", IsQuote) == "";
  }

  lemma {:induction false} StripBlanks(blanks: string, s: string)
    requires s != "" && !IsSpace(s[0])
    requires forall c | c in blanks :: IsSpace(c)
    ensures StripLeft(blanks + s, IsSpace) == s
  {
    if blanks == "" {
      assert blanks + s == s;
    } else {
      assert blanks[0] in blanks;
      assert (blanks + s)[1..] == blanks[1..] + s;
      StripBlanks(blanks[1..], s);
    }
  }

  lemma StripUnquotes(s: string)
    requires s != "" && !IsQuote(s[0]) && !IsQuote(s[|s| - 1])
    ensures Strip("\"" + s + "\"", IsQuote) == s
  {
    var t := "\"" + s + "\"";
    assert t[1..] == s + "\"";
    assert StripLeft(t, IsQuote) == StripLeft(s + "\"", IsQuote) == s + "\"";
    assert (s + "\"")[..|s|] == s;
    assert StripRight(s + "\"", IsQuote) == StripRight(s, IsQuote);
  }

  // ---- The caller ---------------------------------------------------------------------------------

  /** A token whose groups name an organization, not another than the request's, and
      carry a writing role. */
  ghost predicate MayWriteFor(claim: Option<Claim>, loads: string -> Option<seq<string>>, queryOrganization: string) {
    && claim.Some?
    && var groups := ExtractGroups(claim.value, loads);
    && var organization := ExtractOrganization(groups);
    && organization != "" && (queryOrganization == "" || queryOrganization == organization)
    && (CarriesRole(groups, "editor") || CarriesRole(groups, "admin"))
  }

  /** The context of a caller who may write, or the status of the refusal. */
  ghost function Authorized(claim: Option<Claim>, loads: string -> Option<seq<string>>, queryOrganization: string)
    : Result<AuthContext, int>
  {
    if MayWriteFor(claim, loads, queryOrganization) then ContextOf(ExtractGroups(claim.value, loads), queryOrganization)
    else if claim.Some? then Err(403)
    else if queryOrganization == "" then Err(400)
    else Err(401)
  }

  /** Whoever may write gets the context the groups of the token stand for. */
  method Authorize(claim: Option<Claim>, loads: string -> Option<seq<string>>, queryOrganization: string)
    returns (r: Result<AuthContext, int>)
    ensures r.Ok? <==> MayWriteFor(claim, loads, queryOrganization)
    ensures r.Ok? <==>
      && claim.Some?
      && var groups := ExtractGroups(claim.value, loads);
      && var organization := ExtractOrganization(groups);
      && organization != "" && (queryOrganization == "" || queryOrganization == organization)
      && exists g ::
           && g in groups
           && (g == "editor" || g == "admin"
               || exists i | 0 <= i < |g| ::
                    g[i] == ':' && ':' !in g[..i] && (g[i + 1..] == "editor" || g[i + 1..] == "admin"))
    ensures r.Ok? ==> forall role :: role in r.value.roles <==>
      && role in {"admin", "editor", "viewer"}
      && exists g ::
           && g in ExtractGroups(claim.value, loads)
           && (g == role || exists i | 0 <= i < |g| :: g[i] == ':' && ':' !in g[..i] && g[i + 1..] == role)
    ensures r.Ok? ==>
      var groups := ExtractGroups(claim.value, loads);
      && "public" in r.value.visibilityFilter && r.value.visibilityFilter <= {"public", "members", "restricted"}
      && "members" in r.value.visibilityFilter
      && ("restricted" in r.value.visibilityFilter <==>
            CarriesRole(groups, "admin") || r.value.organization + ":restricted" in groups)
    ensures r.Ok? ==>
      var groups := ExtractGroups(claim.value, loads);
      && r.value.organization == ExtractOrganization(groups)
      && (forall role :: role in r.value.roles <==> CarriesRole(groups, role))
      && (forall level :: level in r.value.visibilityFilter <==> MaySee(groups, r.value.organization, level))
    ensures r.Err? ==> r.error == if claim.Some? then 403 else if queryOrganization == "" then 400 else 401
    ensures r == Authorized(claim, loads, queryOrganization)
  {
    r := ResolveAuthContext(claim, loads, queryOrganization);
    if r.Ok? {
      if !r.value.authenticated {
        return Err(401);
      }
      assert ALL_VISIBILITY_LEVELS[0] == "public" && ALL_VISIBILITY_LEVELS[1] == "members";
      RolesAreKnown(r.value.groups);
      CarriesMeans(r.value.groups);
      WritersMeans(r.value.groups);
      if !MayWrite(r.value.roles) {
        return Err(403);
      }
    }
  }

  lemma WritersMeans(groups: set<string>)
    ensures CarriesRole(groups, "editor") || CarriesRole(groups, "admin") <==>
      exists g ::
        && g in groups
        && (g == "editor" || g == "admin"
            || exists i | 0 <= i < |g| ::
                 g[i] == ':' && ':' !in g[..i] && (g[i + 1..] == "editor" || g[i + 1..] == "admin"))
  {
    forall g | g in groups
      ensures GivesRole(g, "editor") || GivesRole(g, "admin") <==>
        (g == "editor" || g == "admin"
         || exists i | 0 <= i < |g| ::
              g[i] == ':' && ':' !in g[..i] && (g[i + 1..] == "editor" || g[i + 1..] == "admin"))
    {
    }
  }

  lemma RolesAreKnown(groups: set<string>)
    ensures forall role | CarriesRole(groups, role) :: role in ROLE_GROUPS
  {
  }

  /** No one writes without a token whose groups carry `editor` or `admin`, and no
      one writes for an organization other than that of the token. */
  lemma OnlyWritersWrite(claim: Option<Claim>, loads: string -> Option<seq<string>>, queryOrganization: string)
    ensures Authorized(claim, loads, queryOrganization).Ok? <==> MayWriteFor(claim, loads, queryOrganization)
    ensures Authorized(claim, loads, queryOrganization).Ok? ==>
      var context := Authorized(claim, loads, queryOrganization).value;
      context.organization == ExtractOrganization(ExtractGroups(claim.value, loads)) && MayWrite(context.roles)
  {
  }

  // ---- Answers --------------------------------------------------------------------------------------

  function StatusOf(error: Error): int {
    match error
    case NotFound => 404
    case ETagMismatch => 412
    case OrganizationImmutable => 422
    case Forbidden => 403
    case AlreadyExists => 500
  }

  function Answer(r: Result<Feature, Error>): Result<Feature, int> {
    match r
    case Ok(f) => Ok(f)
    case Err(e) => Err(StatusOf(e))
  }

  /** A request without a body, or with the JSON text `null`. */
  predicate NoBody(body: Option<Value>) {
    body.None? || body.value.Null?
  }

  /** The atomic write's answer, status by status, on the item then stored. */
  lemma AnswerMeans(item: Option<Feature>, req: Request, stamp: Stamp)
    requires WellFormed(req) && (item.Some? ==> CleanProperties(item.value))
    ensures var r := Answer(AtomicWrite(item, req, stamp));
      if req.op.Create? then if item.Some? then r == Err(500) else r.Ok?
      else if item.None? || item.value.deleted then r == Err(404)
      else if item.value.etag != req.op.ifMatch then r == Err(412)
      else if (req.op.Replace? && NamesOther(req.op.body, req.organization))
              || (req.op.Update? && NamesOther(req.op.patch, req.organization)) then r == Err(422)
      else r.Ok?
    ensures Answer(AtomicWrite(item, req, stamp)).Ok? ==>
      AtomicWrite(item, req, stamp) == Ok(Answer(AtomicWrite(item, req, stamp)).value)
  {
    hide AtomicWrite, NamesOther, WellFormed;
    RefusedIff(item, req, stamp);
  }

  /** The write itself does not look at the roles. */
  lemma RolesDoNotMatter(item: Option<Feature>, organization: string, collectionId: string, roles: set<string>,
                         op: Op, stamp: Stamp)
    requires WellFormed(Request(organization, collectionId, {}, op))
    ensures AtomicWrite(item, Request(organization, collectionId, roles, op), stamp)
         == AtomicWrite(item, Request(organization, collectionId, {}, op), stamp)
    ensures var req := Request(organization, collectionId, roles, op);
      var plain := Request(organization, collectionId, {}, op);
      forall f :: RecordFor(req, stamp, f) == RecordFor(plain, stamp, f)
  {
  }

  // ---- PUT ----------------------------------------------------------------------------------------

  /** The answer to a PUT that names an ETag and has passed the validator, from the item stored. */
  ghost predicate PutAnswered(context: AuthContext, collectionId: string, featureId: string, named: string, body: Value,
                              stored: Table, r: Result<Feature, int>)
  {
    var key := Key(context.organization + "#COLLECTION#" + collectionId, "FEATURE#" + featureId);
    if key !in stored || stored[key].deleted then r == Err(404)
    else if "admin" !in context.roles && NamesMember(body, "visibility")
            && body.entries["properties"].entries["visibility"] != Str(stored[key].visibility) then r == Err(403)
    else if stored[key].etag != named then r == Err(412)
    else if NamesOther(body, context.organization) then r == Err(422)
    else r.Ok?
  }

  /** Refusals in their order, and otherwise the request that is carried out. */
  ghost predicate PutOutcome(context: AuthContext, config: Option<CollectionConfig>, featureId: string,
                             ifMatchHeader: Option<string>, body: Option<Value>, validates: bool,
                             stored: Table, r: Result<Feature, int>, req: Request)
  {
    if config.None? then r == Err(404)
    else if ifMatchHeader.None? then r == Err(428)
    else match IfMatch(ifMatchHeader)
      case None => r == Err(428)
      case Some(named) =>
        if body.None? || body.value.Null? then r == Err(400)
        else if !validates then r == Err(422)
        else
          && PutAnswered(context, config.value.collectionId, featureId, named, body.value, stored, r)
          && (r.Ok? ==> req == Request(context.organization, config.value.collectionId, context.roles,
                                       Replace(featureId, body.value, named)))
  }

  /** The step machine's checks refuse the very PUTs that are answered 404 or 403. */
  lemma PutRefusalsAreChecks(context: AuthContext, collectionId: string, featureId: string, named: string, body: Value,
                             stored: Table, r: Result<Feature, int>)
    requires "editor" in context.roles || "admin" in context.roles
    requires IsBody(body) && PutAnswered(context, collectionId, featureId, named, body, stored, r)
    ensures var req := Request(context.organization, collectionId, context.roles, Replace(featureId, body, named));
      var item := Lookup(stored, ItemKey(req));
      && (r == Err(404) <==> Checks(req, item) == Failed(NotFound))
      && (r == Err(403) <==> Checks(req, item) == Failed(Forbidden))
  {
    hide Checks, NamesOther;
    var req := Request(context.organization, collectionId, context.roles, Replace(featureId, body, named));
    ChecksMean(req, Lookup(stored, ItemKey(req)));
    ItemKeyAsText(req);
  }

  lemma ItemKeyAsText(req: Request)
    requires !req.op.Create?
    ensures ItemKey(req) == Key(req.organization + "#COLLECTION#" + req.collectionId, "FEATURE#" + req.op.id)
  {
  }

  lemma PutAnswers(context: AuthContext, collectionId: string, featureId: string, named: string, body: Value,
                   stored: Table, stamp: Stamp)
    requires IsBody(body) && forall k | k in stored :: SoundItem(k, stored[k])
    ensures var req := Request(context.organization, collectionId, context.roles, Replace(featureId, body, named));
      var item := Lookup(stored, TargetKey(req, stamp));
      PutAnswered(context, collectionId, featureId, named, body, stored,
                  if Visible(item, {}).Err? then Err(404)
                  else if !MayReplace(context.roles, body, item.value.visibility) then Err(403)
                  else Answer(AtomicWrite(item, req, stamp)))
  {
    hide AtomicWrite, Answer, NamesOther, Stored;
    var req := Request(context.organization, collectionId, context.roles, Replace(featureId, body, named));
    ItemKeyAsText(req);
    AnswerMeans(Lookup(stored, TargetKey(req, stamp)), req, stamp);
  }

  /** `validates` is the verdict of the schema validator. */
  method HandleReplaceFeature(dal: FeatureDAL, config: Option<CollectionConfig>, featureId: string,
                              claim: Option<Claim>, loads: string -> Option<seq<string>>, queryOrganization: string,
                              ifMatchHeader: Option<string>, body: Option<Value>, validates: bool, stamp: Stamp)
    returns (r: Result<Feature, int>, ghost req: Request)
    requires dal.Valid()
    requires config.Some? && body.Some? ==> (validates <==> SA.Received(config.value, body.value))
    modifies dal
    ensures dal.Valid()
    ensures match Authorized(claim, loads, queryOrganization)
            case Err(status) => r == Err(status)
            case Ok(context) =>
              PutOutcome(context, config, featureId, ifMatchHeader, body, validates, old(dal.features), r, req)
    ensures r.Ok? ==> Carried(old(dal.features), req, stamp, r.value) && dal.Wrote(req, stamp)
    ensures r.Err? ==> dal.features == old(dal.features) && dal.changes == old(dal.changes)
  {
    hide AtomicWrite, Stored, SA.Received, IfMatch, NamesOther, Authorized, PutAnswered, Answer;
    req := NO_REQUEST;
    var auth := Authorize(claim, loads, queryOrganization);
    if auth.Err? {
      return Err(auth.error), req;
    }
    var context := auth.value;
    if config.None? {
      return Err(404), req;
    }
    var ifMatch := IfMatch(ifMatchHeader);
    NoHeaderNamesNothing();
    if ifMatch.None? {
      return Err(428), req;
    }
    if NoBody(body) {
      return Err(400), req;
    }
    if !validates {
      return Err(422), req;
    }
    SA.ReceivedIsBody(config.value, body.value);
    var collectionId := config.value.collectionId;
    req := Request(context.organization, collectionId, context.roles, Replace(featureId, body.value, ifMatch.value));
    PutAnswers(context, collectionId, featureId, ifMatch.value, body.value, dal.features, stamp);
    RolesDoNotMatter(Lookup(dal.features, TargetKey(req, stamp)), context.organization, collectionId, context.roles,
                     req.op, stamp);
    var existing := dal.GetFeature(collectionId, featureId, context.organization, {});
    if existing.Err? {
      return Err(404), req;
    }
    if !MayReplace(context.roles, body.value, existing.value.visibility) {
      return Err(403), req;
    }
    var written := dal.ReplaceFeature(collectionId, featureId, body.value, ifMatch.value, context.organization, stamp);
    AnswerKeeps(written);
    r := Answer(written);
  }

  // ---- POST ---------------------------------------------------------------------------------------

  ghost predicate PostOutcome(context: AuthContext, config: Option<CollectionConfig>, body: Option<Value>,
                              validates: bool, newId: string, stored: Table, r: Result<Feature, int>, req: Request)
  {
    if config.None? then r == Err(404)
    else if body.None? || body.value.Null? then r == Err(400)
    else match CreateRefusal(context.roles, body.value)
      case Some(status) => r == Err(status)
      case None =>
        if !validates then r == Err(422)
        else
          var key := Key(context.organization + "#COLLECTION#" + config.value.collectionId, "FEATURE#" + newId);
          && (if key in stored then r == Err(500) else r.Ok?)
          && (r.Ok? ==> req == Request(context.organization, config.value.collectionId, context.roles,
                                       Create(body.value)))
  }

  /** Of the bodies that have the shape of a feature, the POSTs answered 403 are those
      of callers who are not admins and name a visibility, and the step machine's
      checks refuse the very same. */
  lemma PostRefusalsAreChecks(context: AuthContext, config: Option<CollectionConfig>, body: Option<Value>,
                              validates: bool, newId: string, stored: Table, r: Result<Feature, int>, req: Request)
    requires "editor" in context.roles || "admin" in context.roles
    requires config.Some? && body.Some? && IsBody(body.value)
    requires PostOutcome(context, config, body, validates, newId, stored, r, req)
    ensures r == Err(403) <==> "admin" !in context.roles && NamesMember(body.value, "visibility")
    ensures r == Err(403) <==>
      Checks(Request(context.organization, config.value.collectionId, context.roles, Create(body.value)), None)
        == Failed(Forbidden)
  {
    hide Checks, CreateRefusal;
    CreateRefusalIs(context.roles, body.value);
    ChecksMean(Request(context.organization, config.value.collectionId, context.roles, Create(body.value)), None);
  }

  lemma PostAnswers(context: AuthContext, collectionId: string, body: Value, stored: Table, stamp: Stamp)
    requires IsBody(body) && forall k | k in stored :: SoundItem(k, stored[k])
    ensures var req := Request(context.organization, collectionId, context.roles, Create(body));
      var r := Answer(AtomicWrite(Lookup(stored, TargetKey(req, stamp)), req, stamp));
      if Key(context.organization + "#COLLECTION#" + collectionId, "FEATURE#" + stamp.newId) in stored
      then r == Err(500)
      else r.Ok?
  {
    hide AtomicWrite, Answer, Stored;
    var req := Request(context.organization, collectionId, context.roles, Create(body));
    AnswerMeans(Lookup(stored, TargetKey(req, stamp)), req, stamp);
  }

  /** The field check of a POST comes before its validation. */
  method HandleCreateFeature(dal: FeatureDAL, config: Option<CollectionConfig>,
                             claim: Option<Claim>, loads: string -> Option<seq<string>>, queryOrganization: string,
                             body: Option<Value>, validates: bool, stamp: Stamp)
    returns (r: Result<Feature, int>, ghost req: Request)
    requires dal.Valid()
    requires config.Some? && body.Some? ==> (validates <==> SA.Received(config.value, body.value))
    modifies dal
    ensures dal.Valid()
    ensures match Authorized(claim, loads, queryOrganization)
            case Err(status) => r == Err(status)
            case Ok(context) =>
              PostOutcome(context, config, body, validates, stamp.newId, old(dal.features), r, req)
    ensures r.Ok? ==> Carried(old(dal.features), req, stamp, r.value) && dal.Wrote(req, stamp)
    ensures r.Err? ==> dal.features == old(dal.features) && dal.changes == old(dal.changes)
  {
    hide AtomicWrite, Stored, SA.Received, Authorized, Answer, CreateRefusal, MakePk, MakeSk;
    req := NO_REQUEST;
    var auth := Authorize(claim, loads, queryOrganization);
    if auth.Err? {
      return Err(auth.error), req;
    }
    var context := auth.value;
    if config.None? {
      return Err(404), req;
    }
    if NoBody(body) {
      return Err(400), req;
    }
    var refusal := CreateRefusal(context.roles, body.value);
    if refusal.Some? {
      return Err(refusal.value), req;
    }
    if !validates {
      return Err(422), req;
    }
    SA.ReceivedIsBody(config.value, body.value);
    var collectionId := config.value.collectionId;
    req := Request(context.organization, collectionId, context.roles, Create(body.value));
    PostAnswers(context, collectionId, body.value, dal.features, stamp);
    RolesDoNotMatter(Lookup(dal.features, TargetKey(req, stamp)), context.organization, collectionId, context.roles,
                     req.op, stamp);
    var written := dal.CreateFeature(collectionId, body.value, context.organization, stamp);
    AnswerKeeps(written);
    r := Answer(written);
  }

  // ---- PATCH --------------------------------------------------------------------------------------

  ghost predicate PatchAnswered(context: AuthContext, collectionId: string, featureId: string, named: string,
                                patch: Value, stored: Table, r: Result<Feature, int>)
  {
    var key := Key(context.organization + "#COLLECTION#" + collectionId, "FEATURE#" + featureId);
    if "admin" !in context.roles && NamesMember(patch, "visibility") then r == Err(403)
    else if key !in stored || stored[key].deleted then r == Err(404)
    else if stored[key].etag != named then r == Err(412)
    else if NamesOther(patch, context.organization) then r == Err(422)
    else r.Ok?
  }

  ghost predicate PatchOutcome(context: AuthContext, config: Option<CollectionConfig>, featureId: string,
                               ifMatchHeader: Option<string>, body: Option<Value>,
                               stored: Table, r: Result<Feature, int>, req: Request)
  {
    if config.None? then r == Err(404)
    else if ifMatchHeader.None? then r == Err(428)
    else match IfMatch(ifMatchHeader)
      case None => r == Err(428)
      case Some(named) =>
        if body.None? || body.value.Null? then r == Err(400)
        else
          && PatchAnswered(context, config.value.collectionId, featureId, named, body.value, stored, r)
          && (r.Ok? ==> req == Request(context.organization, config.value.collectionId, context.roles,
                                       Update(featureId, body.value, named)))
  }

  /** The step machine's checks refuse the very PATCHes that are answered 403. */
  lemma PatchRefusalsAreChecks(context: AuthContext, collectionId: string, featureId: string, named: string,
                               patch: Value, stored: Table, r: Result<Feature, int>)
    requires "editor" in context.roles || "admin" in context.roles
    requires IsPatch(patch) && PatchAnswered(context, collectionId, featureId, named, patch, stored, r)
    ensures var req := Request(context.organization, collectionId, context.roles, Update(featureId, patch, named));
      r == Err(403) <==> Checks(req, Lookup(stored, ItemKey(req))) == Failed(Forbidden)
  {
    hide Checks, NamesOther;
    var req := Request(context.organization, collectionId, context.roles, Update(featureId, patch, named));
    ChecksMean(req, Lookup(stored, ItemKey(req)));
  }

  lemma PatchAnswers(context: AuthContext, collectionId: string, featureId: string, named: string, patch: Value,
                     stored: Table, stamp: Stamp)
    requires IsPatch(patch) && forall k | k in stored :: SoundItem(k, stored[k])
    ensures var req := Request(context.organization, collectionId, context.roles, Update(featureId, patch, named));
      PatchAnswered(context, collectionId, featureId, named, patch, stored,
                    if !MayUpdate(context.roles, patch) then Err(403)
                    else Answer(AtomicWrite(Lookup(stored, TargetKey(req, stamp)), req, stamp)))
  {
    hide AtomicWrite, Answer, NamesOther, Stored;
    var req := Request(context.organization, collectionId, context.roles, Update(featureId, patch, named));
    ItemKeyAsText(req);
    AnswerMeans(Lookup(stored, TargetKey(req, stamp)), req, stamp);
  }

  /** A PATCH body is checked for `visibility`, not validated. */
  method HandleUpdateFeature(dal: FeatureDAL, config: Option<CollectionConfig>, featureId: string,
                             claim: Option<Claim>, loads: string -> Option<seq<string>>, queryOrganization: string,
                             ifMatchHeader: Option<string>, body: Option<Value>, stamp: Stamp)
    returns (r: Result<Feature, int>, ghost req: Request)
    requires dal.Valid()
    requires !NoBody(body) ==> IsPatch(body.value)
    modifies dal
    ensures dal.Valid()
    ensures match Authorized(claim, loads, queryOrganization)
            case Err(status) => r == Err(status)
            case Ok(context) =>
              PatchOutcome(context, config, featureId, ifMatchHeader, body, old(dal.features), r, req)
    ensures r.Ok? ==> Carried(old(dal.features), req, stamp, r.value) && dal.Wrote(req, stamp)
    ensures r.Err? ==> dal.features == old(dal.features) && dal.changes == old(dal.changes)
  {
    hide AtomicWrite, Stored, IfMatch, NamesOther, Authorized, PatchAnswered, Answer;
    req := NO_REQUEST;
    var auth := Authorize(claim, loads, queryOrganization);
    if auth.Err? {
      return Err(auth.error), req;
    }
    var context := auth.value;
    if config.None? {
      return Err(404), req;
    }
    var ifMatch := IfMatch(ifMatchHeader);
    NoHeaderNamesNothing();
    if ifMatch.None? {
      return Err(428), req;
    }
    if NoBody(body) {
      return Err(400), req;
    }
    var collectionId := config.value.collectionId;
    req := Request(context.organization, collectionId, context.roles, Update(featureId, body.value, ifMatch.value));
    PatchAnswers(context, collectionId, featureId, ifMatch.value, body.value, dal.features, stamp);
    RolesDoNotMatter(Lookup(dal.features, TargetKey(req, stamp)), context.organization, collectionId, context.roles,
                     req.op, stamp);
    if !MayUpdate(context.roles, body.value) {
      return Err(403), req;
    }
    var written := dal.UpdateFeature(collectionId, featureId, body.value, ifMatch.value, context.organization, stamp);
    AnswerKeeps(written);
    r := Answer(written);
  }

  // ---- DELETE -------------------------------------------------------------------------------------

  /** The answer to a DELETE that names an ETag, with the items before and after it. */
  ghost predicate DeleteAnswered(context: AuthContext, collectionId: string, featureId: string, named: string,
                                 now: Time, stored: Table, left: Table, status: int)
  {
    var key := Key(context.organization + "#COLLECTION#" + collectionId, "FEATURE#" + featureId);
    if key !in stored || stored[key].deleted then status == 404
    else if stored[key].etag != named then status == 412
    else status == 204 && left == stored[key := stored[key].(deleted := true, updatedAt := now)]
  }

  /** 204 says that the item was live under the ETag named and is marked deleted now. */
  lemma DeletedMeans(context: AuthContext, collectionId: string, featureId: string, named: string, now: Time,
                     stored: Table, left: Table, status: int)
    requires DeleteAnswered(context, collectionId, featureId, named, now, stored, left, status)
    requires status != 204 ==> left == stored
    ensures var key := Key(context.organization + "#COLLECTION#" + collectionId, "FEATURE#" + featureId);
      status == 204 <==>
        && key in stored && !stored[key].deleted && stored[key].etag == named
        && key in left && left[key].deleted
  {
  }

  ghost predicate DeleteOutcome(context: AuthContext, collectionId: string, featureId: string,
                                ifMatchHeader: Option<string>, now: Time, stored: Table, left: Table, status: int,
                                req: Request)
  {
    if ifMatchHeader.None? then status == 428
    else match IfMatch(ifMatchHeader)
      case None => status == 428
      case Some(named) =>
        && DeleteAnswered(context, collectionId, featureId, named, now, stored, left, status)
        && (status == 204 ==>
              req == Request(context.organization, collectionId, context.roles, Delete(featureId, named)))
  }

  /** The step machine's checks let every DELETE of an editor or admin pass. */
  lemma DeletesPassChecks(req: Request, item: Option<Feature>)
    requires req.op.Delete? && ("editor" in req.roles || "admin" in req.roles)
    ensures Checks(req, item) == Permitted
  {
    ChecksMean(req, item);
  }

  lemma DeleteAnswers(context: AuthContext, collectionId: string, featureId: string, named: string,
                      stored: Table, stamp: Stamp)
    requires forall k | k in stored :: SoundItem(k, stored[k])
    ensures var req := Request(context.organization, collectionId, context.roles, Delete(featureId, named));
      var r := AtomicWrite(Lookup(stored, TargetKey(req, stamp)), req, stamp);
      DeleteAnswered(context, collectionId, featureId, named, stamp.now, stored,
                     if r.Ok? then stored[TargetKey(req, stamp) := Stored(r.value)] else stored,
                     if r.Ok? then 204 else StatusOf(r.error))
  {
    hide AtomicWrite, Answer, Stored;
    var req := Request(context.organization, collectionId, context.roles, Delete(featureId, named));
    var item := Lookup(stored, TargetKey(req, stamp));
    ItemKeyAsText(req);
    AnswerMeans(item, req, stamp);
    AnswerKeeps(AtomicWrite(item, req, stamp));
    if AtomicWrite(item, req, stamp).Ok? {
      DeleteMeans(item, req, stamp);
    }
  }

  /** A DELETE does not look the collection up. Its answer is the status alone. */
  method HandleDeleteFeature(dal: FeatureDAL, collectionId: string, featureId: string,
                             claim: Option<Claim>, loads: string -> Option<seq<string>>, queryOrganization: string,
                             ifMatchHeader: Option<string>, stamp: Stamp)
    returns (status: int, ghost req: Request)
    requires dal.Valid()
    modifies dal
    ensures dal.Valid()
    ensures match Authorized(claim, loads, queryOrganization)
            case Err(error) => status == error && status != 204
            case Ok(context) =>
              DeleteOutcome(context, collectionId, featureId, ifMatchHeader, stamp.now, old(dal.features), dal.features,
                            status, req)
    ensures status == 204 ==> dal.Wrote(req, stamp)
    ensures status != 204 ==> dal.features == old(dal.features) && dal.changes == old(dal.changes)
  {
    hide AtomicWrite, Stored, IfMatch, DeleteAnswered, StatusOf, Authorized, SoundItem, RecordFor, MakePk, MakeSk;
    hide ExtractGroups, ExtractOrganization, CarriesRole;
    req := NO_REQUEST;
    var auth := Authorize(claim, loads, queryOrganization);
    if auth.Err? {
      return auth.error, req;
    }
    var context := auth.value;
    var ifMatch := IfMatch(ifMatchHeader);
    NoHeaderNamesNothing();
    if ifMatch.None? {
      return 428, req;
    }
    req := Request(context.organization, collectionId, context.roles, Delete(featureId, ifMatch.value));
    ghost var r := AtomicWrite(Lookup(dal.features, TargetKey(req, stamp)), req, stamp);
    DeleteAnswers(context, collectionId, featureId, ifMatch.value, dal.features, stamp);
    RolesDoNotMatter(Lookup(dal.features, TargetKey(req, stamp)), context.organization, collectionId, context.roles,
                     req.op, stamp);
    var error := dal.DeleteFeature(collectionId, featureId, ifMatch.value, context.organization, stamp);
    StatusesAreErrors();
    status := if error.None? then 204 else StatusOf(error.value);
  }

  lemma StatusesAreErrors()
    ensures forall e :: StatusOf(e) in {403, 404, 412, 422, 500}
  {
  }

  lemma NoHeaderNamesNothing()
    ensures IfMatch(None) == None
  {
  }

  lemma AnswerKeeps(r: Result<Feature, Error>)
    ensures r.Err? ==> Answer(r) == Err(StatusOf(r.error))
    ensures r.Ok? ==> Answer(r) == Ok(r.value)
  {
  }

  /** The feature answered is the one the atomic write makes of the item then stored. */
  ghost predicate Carried(stored: Table, req: Request, stamp: Stamp, f: Feature) {
    WellFormed(req) && AtomicWrite(Lookup(stored, TargetKey(req, stamp)), req, stamp) == Ok(f)
  }

  const NO_REQUEST := Request("", "", {}, Delete("", ""))

  lemma DeleteMeans(item: Option<Feature>, req: Request, stamp: Stamp)
    requires WellFormed(req) && req.op.Delete? && AtomicWrite(item, req, stamp).Ok?
    requires item.Some? ==> Stored(item.value) == item.value
    ensures item.Some?
    ensures Stored(AtomicWrite(item, req, stamp).value) == item.value.(deleted := true, updatedAt := stamp.now)
  {
    StoredDeletion(item.value, stamp.now);
  }

  lemma AuthorizedWrites(claim: Option<Claim>, loads: string -> Option<seq<string>>, queryOrganization: string)
    ensures Authorized(claim, loads, queryOrganization).Ok? ==>
      var roles := Authorized(claim, loads, queryOrganization).value.roles; "editor" in roles || "admin" in roles
  {
    OnlyWritersWrite(claim, loads, queryOrganization);
  }
}
