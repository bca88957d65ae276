/** Groups, organization, roles and visibility of a caller, and the checks made
    on write requests. */
module Auth {
  import opened Json
  import opened SortKeys

  // ---- Text ------------------------------------------------------------------------

  /** Python's whitespace. */
  predicate IsSpace(c: char) {
    || '\t' <= c <= '\r'
    || '\U{1c}' <= c <= ' '
    || c in {'\U{85}', '\U{a0}', '\U{1680}', '\U{2028}', '\U{2029}', '\U{202f}', '\U{205f}', '\U{3000}'}
    || '\U{2000}' <= c <= '\U{200a}'
  }

  predicate IsBracket(c: char) {
    c == '[' || c == ']'
  }

  function StripLeft(s: string, drop: char -> bool): string {
    if s != "" && drop(s[0]) then StripLeft(s[1..], drop) else s
  }

  function StripRight(s: string, drop: char -> bool): string {
    if s != "" && drop(s[|s| - 1]) then StripRight(s[..|s| - 1], drop) else s
  }

  /** str.strip: drop the given characters from both ends. */
  function Strip(s: string, drop: char -> bool): string {
    StripRight(StripLeft(s, drop), drop)
  }

  /** str.split: the maximal runs of non-space characters. `word` is the run
      that ends where `s` begins. */
  function Words(s: string, word: string): seq<string> {
    if s == "" then (if word == "" then [] else [word])
    else if IsSpace(s[0]) then (if word == "" then [] else [word]) + Words(s[1..], "")
    else Words(s[1..], word + [s[0]])
  }

  function Split(s: string): seq<string> {
    Words(s, "")
  }

  function Join(groups: seq<string>): string {
    if groups == [] then ""
    else if |groups| == 1 then groups[0]
    else groups[0] + " " + Join(groups[1..])
  }

  // ---- Groups claim ----------------------------------------------------------------

  /** The `cognito:groups` claim: absent or of another type, a native list, or text. */
  datatype Claim = Absent | Native(groups: seq<string>) | Text(text: string)

  function ToSet(groups: seq<string>): set<string> {
    set g | g in groups
  }

  /** `loads` is the JSON parser: the list a text denotes, or None when it is not
      valid JSON or not a list. */
  function ExtractGroups(claim: Claim, loads: string -> Option<seq<string>>): set<string> {
    match claim
    case Absent => {}
    case Native(groups) => ToSet(groups)
    case Text(text) =>
      var stripped := Strip(text, IsSpace);
      if stripped != "" && stripped[0] == '[' then
        if loads(stripped).Some? then ToSet(loads(stripped).value)
        else ToSet(Split(Strip(Strip(stripped, IsBracket), IsSpace)))
      else
        ToSet(Split(stripped))
  }

  /** Non-empty, and free of whitespace and brackets. */
  predicate IsGroupName(g: string) {
    g != "" && forall i | 0 <= i < |g| :: !IsSpace(g[i]) && !IsBracket(g[i])
  }

  predicate AreGroupNames(groups: seq<string>) {
    forall i | 0 <= i < |groups| :: IsGroupName(groups[i])
  }

  lemma {:induction false} WordsOfName(g: string, word: string, rest: string)
    requires forall i | 0 <= i < |g| :: !IsSpace(g[i])
    ensures Words(g + rest, word) == Words(rest, word + g)
    decreases |g|
  {
    if g == "" {
      assert g + rest == rest && word + g == word;
    } else {
      assert (g + rest)[1..] == g[1..] + rest;
      WordsOfName(g[1..], word + [g[0]], rest);
      assert word + [g[0]] + g[1..] == word + g;
    }
  }

  lemma {:induction false} SplitOfJoin(groups: seq<string>)
    requires AreGroupNames(groups)
    ensures Split(Join(groups)) == groups
  {
    if |groups| == 1 {
      WordsOfName(groups[0], "", "");
      assert groups[0] + "" == groups[0] && "" + groups[0] == groups[0];
    } else if |groups| > 1 {
      var g, rest := groups[0], Join(groups[1..]);
      WordsOfName(g, "", " " + rest);
      assert g + (" " + rest) == g + " " + rest && "" + g == g;
      assert (" " + rest)[1..] == rest;
      SplitOfJoin(groups[1..]);
      assert groups == [g] + groups[1..];
    }
  }

  /** A joined list begins and ends inside a group name. */
  lemma {:induction false} JoinEnds(groups: seq<string>)
    requires groups != [] && AreGroupNames(groups)
    ensures var s := Join(groups);
      s != "" && !IsSpace(s[0]) && !IsBracket(s[0]) && !IsSpace(s[|s| - 1]) && !IsBracket(s[|s| - 1])
  {
    assert IsGroupName(groups[0]);
    if |groups| > 1 {
      JoinEnds(groups[1..]);
    }
  }

  lemma StripKeeps(s: string, drop: char -> bool)
    requires s != "" && !drop(s[0]) && !drop(s[|s| - 1])
    ensures Strip(s, drop) == s
  {
  }

  lemma StripUnbrackets(s: string)
    requires s != "" && !IsBracket(s[0]) && !IsBracket(s[|s| - 1])
    ensures Strip("[" + s + "]", IsBracket) == s
  {
    var t := "[" + s + "]";
    assert t[1..] == s + "]";
    assert StripLeft(t, IsBracket) == StripLeft(s + "]", IsBracket) == s + "]";
    assert (s + "]")[..|s|] == s;
    assert StripRight(s + "]", IsBracket) == StripRight(s, IsBracket);
  }

  /** The three shapes in which the groups reach the service give the same set. */
  lemma GroupFormatsAgree(groups: seq<string>, loads: string -> Option<seq<string>>)
    requires groups != [] && AreGroupNames(groups)
    requires loads("[" + Join(groups) + "]") == None
    ensures ExtractGroups(Native(groups), loads) == ToSet(groups)
    ensures ExtractGroups(Text(Join(groups)), loads) == ToSet(groups)
    ensures ExtractGroups(Text("[" + Join(groups) + "]"), loads) == ToSet(groups)
  {
    var s := Join(groups);
    var t := "[" + s + "]";
    JoinEnds(groups);
    StripKeeps(s, IsSpace);
    SplitOfJoin(groups);
    assert t[|t| - 1] == ']';
    StripKeeps(t, IsSpace);
    StripUnbrackets(s);
  }

  /** A JSON array of names, and a claim that is not there. */
  lemma OtherGroupFormats(text: string, groups: seq<string>, loads: string -> Option<seq<string>>)
    requires text != "" && text[0] == '[' && text[|text| - 1] == ']' && loads(text) == Some(groups)
    ensures ExtractGroups(Text(text), loads) == set g | g in groups
    ensures ExtractGroups(Absent, loads) == {}
  {
    StripKeeps(text, IsSpace);
  }

  /** The characters at which text is split, among the ASCII ones. */
  lemma SpacesAre(c: char)
    requires c < '\U{80}'
    ensures IsSpace(c) <==> c in {' ', '\t', '\n', '\U{b}', '\U{c}', '\r', '\U{1c}', '\U{1d}', '\U{1e}', '\U{1f}'}
  {
  }

  lemma {:induction false} WordsHaveNoSpace(s: string, word: string)
    requires forall c | c in word :: !IsSpace(c)
    ensures forall w | w in Words(s, word) :: w != "" && forall c | c in w :: !IsSpace(c)
  {
    hide IsSpace;
    if s != "" {
      if IsSpace(s[0]) {
        WordsHaveNoSpace(s[1..], "");
      } else {
        WordsHaveNoSpace(s[1..], word + [s[0]]);
      }
    }
  }

  /** The groups of a token as the gateway passes them on. */
  lemma GatewayExample(loads: string -> Option<seq<string>>)
    requires loads("[org:A editor A:members]") == None
    ensures ExtractGroups(Text("[org:A editor A:members]"), loads) == {"org:A", "editor", "A:members"}
  {
    hide IsSpace, IsBracket, ExtractGroups, IsGroupName, Join;
    var groups := ["org:A", "editor", "A:members"];
    PrintableIsName("org:A");
    PrintableIsName("editor");
    PrintableIsName("A:members");
    ExampleJoins();
    GroupFormatsAgree(groups, loads);
  }

  lemma PrintableIsName(g: string)
    requires g != "" && forall i | 0 <= i < |g| :: '0' <= g[i] <= 'Z' || 'a' <= g[i] <= 'z'
    ensures IsGroupName(g)
  {
  }

  lemma ExampleJoins()
    ensures "[" + Join(["org:A", "editor", "A:members"]) + "]" == "[org:A editor A:members]"
  {
    var groups := ["org:A", "editor", "A:members"];
    assert Join(["A:members"]) == "A:members";
    assert groups[1..] == ["editor", "A:members"] && groups[1..][1..] == ["A:members"];
    assert Join(groups[1..]) == "editor A:members";
  }

  // ---- Organization, roles, visibility -----------------------------------------------

  const ORG_GROUP_PREFIX := "org:"
  const ROLE_GROUPS := {"admin", "editor", "viewer"}
  const ALL_VISIBILITY_LEVELS := ["public", "members", "restricted"]

  predicate IsOrgGroup(g: string) {
    |g| >= 4 && g[..4] == ORG_GROUP_PREFIX
  }

  /** The alphabetically first organization group decides. */
  function ExtractOrganization(groups: set<string>): string {
    var orgs := set g | g in groups && IsOrgGroup(g);
    if orgs == {} then "" else Least(orgs)[4..]
  }

  /** No organization when no group starts with `org:`; otherwise what follows it in
      the first such group in code-point order. */
  lemma OrganizationMeans(groups: set<string>)
    ensures ExtractOrganization(groups) == "" <==> "org:" in groups || forall g | g in groups :: !("org:" <= g)
    ensures ExtractOrganization(groups) != "" ==>
      && "org:" + ExtractOrganization(groups) in groups
      && forall g | g in groups && "org:" <= g && g != "org:" + ExtractOrganization(groups) ::
           Less("org:" + ExtractOrganization(groups), g)
  {
    var orgs := set g | g in groups && IsOrgGroup(g);
    forall g | g in groups ensures g in orgs <==> "org:" <= g {
    }
    if orgs != {} {
      var least := Least(orgs);
      assert least == "org:" + least[4..] && least in groups;
      assert "org:" in groups <==> "org:" in orgs;
      assert ExtractOrganization(groups) == least[4..];
      assert least[4..] == "" <==> least == "org:";
      if "org:" in groups && least != "org:" {
        LessLonger("org:", least);
        LessAsymmetric("org:", least);
      }
    }
  }

  lemma {:induction false} LessLonger(a: string, b: string)
    requires a <= b && a != b
    ensures Less(a, b)
  {
    if a != "" {
      LessLonger(a[1..], b[1..]);
    }
  }

  /** So a caller in one organization's group belongs to that organization. */
  lemma OneOrganization(groups: set<string>, organization: string)
    requires "org:" + organization in groups
    requires forall g | g in groups && "org:" <= g :: g == "org:" + organization
    ensures ExtractOrganization(groups) == organization
  {
    OrganizationMeans(groups);
    var found := ExtractOrganization(groups);
    if found != "" {
      assert ("org:" + found)[4..] == found && ("org:" + organization)[4..] == organization;
    } else {
      assert "org:" in groups;
      assert ("org:" + organization)[4..] == organization;
    }
  }

  /** What follows the first colon. */
  function AfterColon(g: string): Option<string> {
    if g == "" then None else if g[0] == ':' then Some(g[1..]) else AfterColon(g[1..])
  }

  /** A group gives the role that it is, or that stands right after its first colon. */
  ghost predicate GivesRole(g: string, role: string) {
    && role in {"admin", "editor", "viewer"}
    && (g == role || exists i | 0 <= i < |g| :: g[i] == ':' && ':' !in g[..i] && g[i + 1..] == role)
  }

  ghost predicate CarriesRole(groups: set<string>, role: string) {
    exists g :: g in groups && GivesRole(g, role)
  }

  /** A role is extracted exactly when it is a known one and some group is that role
      or has it right after its first colon. */
  method ExtractRoles(groups: set<string>) returns (roles: set<string>)
    ensures forall r :: r in roles <==>
      && r in {"admin", "editor", "viewer"}
      && exists g ::
           && g in groups
           && (g == r || exists i | 0 <= i < |g| :: g[i] == ':' && ':' !in g[..i] && g[i + 1..] == r)
    ensures forall r :: r in roles <==> CarriesRole(groups, r)
    ensures roles <= ROLE_GROUPS
  {
    roles := {};
    var remaining := groups;
    while remaining != {}
      invariant remaining <= groups
      invariant forall r :: r in roles <==> CarriesRole(groups - remaining, r)
      invariant roles <= ROLE_GROUPS
      decreases remaining
    {
      var group :| group in remaining;
      ghost var before, rolesBefore := groups - remaining, roles;
      remaining := remaining - {group};
      assert groups - remaining == before + {group};
      if group in ROLE_GROUPS {
        roles := roles + {group};
      } else if ':' in group {
        AfterColonFinds(group);
        var part := AfterColon(group).value;
        if part in ROLE_GROUPS {
          roles := roles + {part};
        }
      }
      forall r ensures r in roles <==> r in rolesBefore || GivesRole(group, r) {
        GroupGives(group, r);
      }
      CarriesMore(before, group);
    }
    assert groups - remaining == groups;
    CarriesMeans(groups);
  }

  lemma CarriesMeans(groups: set<string>)
    ensures forall r :: CarriesRole(groups, r) <==>
      && r in {"admin", "editor", "viewer"}
      && exists g ::
           && g in groups
           && (g == r || exists i | 0 <= i < |g| :: g[i] == ':' && ':' !in g[..i] && g[i + 1..] == r)
  {
    forall r | CarriesRole(groups, r)
      ensures r in {"admin", "editor", "viewer"}
      ensures exists g ::
        && g in groups
        && (g == r || exists i | 0 <= i < |g| :: g[i] == ':' && ':' !in g[..i] && g[i + 1..] == r)
    {
      var g :| g in groups && GivesRole(g, r);
    }
    forall r, g | g in groups && r in {"admin", "editor", "viewer"}
        && (g == r || exists i | 0 <= i < |g| :: g[i] == ':' && ':' !in g[..i] && g[i + 1..] == r)
      ensures CarriesRole(groups, r)
    {
      assert GivesRole(g, r);
    }
  }

  lemma CarriesMore(groups: set<string>, group: string)
    ensures forall r :: CarriesRole(groups + {group}, r) <==> CarriesRole(groups, r) || GivesRole(group, r)
  {
    hide GivesRole;
    forall r ensures CarriesRole(groups + {group}, r) <==> CarriesRole(groups, r) || GivesRole(group, r) {
      if g :| g in groups && GivesRole(g, r) {
        assert g in groups + {group};
      }
      if GivesRole(group, r) {
        assert group in groups + {group};
      }
    }
  }

  /** What the loop makes of one group. */
  lemma GroupGives(g: string, r: string)
    ensures GivesRole(g, r) <==>
      if g in ROLE_GROUPS then r == g
      else r in ROLE_GROUPS && AfterColon(g) == Some(r)
  {
    AfterColonFinds(g);
    if i :| 0 <= i < |g| && g[i] == ':' && ':' !in g[..i] && g[i + 1..] == r {
      AfterColonAt(g, i);
    }
    assert forall role | role in ROLE_GROUPS :: ':' !in role;
  }

  lemma {:induction false} AfterColonAt(g: string, i: nat)
    requires i < |g| && g[i] == ':' && ':' !in g[..i]
    ensures AfterColon(g) == Some(g[i + 1..])
  {
    if i > 0 {
      assert g[0] == g[..i][0];
      assert g[1..][..i - 1] == g[..i][1..];
      AfterColonAt(g[1..], i - 1);
      assert g[1..][i..] == g[i + 1..];
    }
  }

  lemma {:induction false} AfterColonFinds(g: string)
    ensures AfterColon(g).Some? <==> ':' in g
    ensures AfterColon(g).Some? ==>
      exists i: nat | i < |g| :: g[i] == ':' && ':' !in g[..i] && AfterColon(g).value == g[i + 1..]
  {
    if g != "" && g[0] != ':' {
      AfterColonFinds(g[1..]);
      assert g == [g[0]] + g[1..];
      if AfterColon(g).Some? {
        var i: nat :| i < |g[1..]| && g[1..][i] == ':' && ':' !in g[1..][..i] && AfterColon(g).value == g[1..][i + 1..];
        assert g[..i + 1] == [g[0]] + g[1..][..i];
        assert g[i + 1] == ':' && ':' !in g[..i + 1] && AfterColon(g).value == g[i + 1 + 1..];
      }
    } else if g != "" {
      assert g[0] == ':' && ':' !in g[..0] && AfterColon(g).value == g[0 + 1..];
    }
  }

  /** The visibility levels a member may see, as the code grants them. */
  ghost predicate MaySee(groups: set<string>, organization: string, level: string) {
    || level == "public"
    || (level in ALL_VISIBILITY_LEVELS && organization != "" && organization + ":" + level in groups)
    || (level in ALL_VISIBILITY_LEVELS && CarriesRole(groups, "admin"))
    || (level == "members" && CarriesRole(groups, "editor"))
  }

  /** Level by level: admins see all three, editors `members`, and a group of the
      organization gives the level it names. */
  method BuildVisibilityFilter(groups: set<string>, organization: string) returns (levels: set<string>)
    ensures "public" in levels && levels <= {"public", "members", "restricted"}
    ensures "members" in levels <==>
      || CarriesRole(groups, "admin") || CarriesRole(groups, "editor")
      || (organization != "" && organization + ":members" in groups)
    ensures "restricted" in levels <==>
      || CarriesRole(groups, "admin")
      || (organization != "" && organization + ":restricted" in groups)
    ensures forall level :: level in levels <==> MaySee(groups, organization, level)
  {
    levels := {"public"};
    if organization != "" {
      for i := 0 to |ALL_VISIBILITY_LEVELS|
        invariant forall level :: level in levels <==>
          level == "public" || (level in ALL_VISIBILITY_LEVELS[..i] && organization + ":" + level in groups)
      {
        var level := ALL_VISIBILITY_LEVELS[i];
        if organization + ":" + level in groups {
          levels := levels + {level};
        }
        assert ALL_VISIBILITY_LEVELS[..i + 1] == ALL_VISIBILITY_LEVELS[..i] + [level];
      }
      assert ALL_VISIBILITY_LEVELS[..|ALL_VISIBILITY_LEVELS|] == ALL_VISIBILITY_LEVELS;
    }
    var roles := ExtractRoles(groups);
    if "admin" in roles {
      levels := levels + (set l | l in ALL_VISIBILITY_LEVELS);
    } else if "editor" in roles {
      levels := levels + {"members"};
    }
    LevelsAre(groups, organization);
  }

  lemma LevelsAre(groups: set<string>, organization: string)
    ensures MaySee(groups, organization, "public")
    ensures forall level | MaySee(groups, organization, level) :: level in {"public", "members", "restricted"}
    ensures MaySee(groups, organization, "members") <==>
      || CarriesRole(groups, "admin") || CarriesRole(groups, "editor")
      || (organization != "" && organization + ":members" in groups)
    ensures MaySee(groups, organization, "restricted") <==>
      || CarriesRole(groups, "admin")
      || (organization != "" && organization + ":restricted" in groups)
  {
    assert ALL_VISIBILITY_LEVELS[1] == "members" && ALL_VISIBILITY_LEVELS[2] == "restricted";
    assert organization + ":" + "members" == organization + ":members";
    assert organization + ":" + "restricted" == organization + ":restricted";
  }

  /** The documentation calls visibility hierarchical. In the code a caller who
      may see `restricted` may also see `members` exactly under this condition. */
  lemma RestrictedSeesMembersIff(groups: set<string>, organization: string)
    requires MaySee(groups, organization, "restricted")
    ensures MaySee(groups, organization, "members") <==>
      CarriesRole(groups, "admin") || CarriesRole(groups, "editor") || organization + ":members" in groups
  {
    assert ALL_VISIBILITY_LEVELS[1] == "members" && ALL_VISIBILITY_LEVELS[2] == "restricted";
    assert organization + ":" + "members" == organization + ":members";
  }

  /** A caller for whom the levels are not nested. */
  lemma RestrictedWithoutMembers()
    ensures MaySee({"org:A", "A:restricted"}, "A", "restricted")
    ensures !MaySee({"org:A", "A:restricted"}, "A", "members")
  {
    var groups := {"org:A", "A:restricted"};
    assert ALL_VISIBILITY_LEVELS[2] == "restricted";
    assert "A" + ":" + "restricted" == "A:restricted";
    assert ("A" + ":" + "members")[2] == 'm';
    assert |"A"| == 1 && |"restricted"| == 10 && |"org:A"| == 5 && |"A:restricted"| == 12;
    forall g | g in groups ensures !GivesRole(g, "admin") && !GivesRole(g, "editor") {
      GroupGives(g, "admin");
      GroupGives(g, "editor");
      assert AfterColon("org:A") == Some("A") by {
        assert "org:A"[3] == ':' && "org:A"[..3] == "org" && "org:A"[4..] == "A";
        AfterColonAt("org:A", 3);
      }
      assert AfterColon("A:restricted") == Some("restricted") by {
        assert "A:restricted"[1] == ':' && "A:restricted"[..1] == "A" && "A:restricted"[2..] == "restricted";
        AfterColonAt("A:restricted", 1);
      }
    }
  }

  // ---- Authorization context ------------------------------------------------------------

  datatype AuthContext = AuthContext(
    authenticated: bool,
    groups: set<string>,
    organization: string,
    visibilityFilter: set<string>,
    roles: set<string>)

  /** The context a set of groups stands for; `queryOrganization` is empty when
      the request names none. An error is its HTTP status. */
  ghost function ContextOf(groups: set<string>, queryOrganization: string): Result<AuthContext, int> {
    var organization := ExtractOrganization(groups);
    if organization == "" then Err(403)
    else if queryOrganization != "" && queryOrganization != organization then Err(403)
    else Ok(AuthContext(true, groups, organization,
                        set l | l in ALL_VISIBILITY_LEVELS && MaySee(groups, organization, l),
                        set r | r in ROLE_GROUPS && CarriesRole(groups, r)))
  }

  /** The context of a request; `claim` is None for one without a token. */
  ghost function Resolved(claim: Option<Claim>, loads: string -> Option<seq<string>>, queryOrganization: string)
    : Result<AuthContext, int>
  {
    if claim.Some? then ContextOf(ExtractGroups(claim.value, loads), queryOrganization)
    else if queryOrganization == "" then Err(400)
    else Ok(AuthContext(false, {}, queryOrganization, {"public"}, {}))
  }

  method ResolveAuthContext(claim: Option<Claim>, loads: string -> Option<seq<string>>, queryOrganization: string)
    returns (r: Result<AuthContext, int>)
    ensures claim.None? && queryOrganization == "" ==> r == Err(400)
    ensures claim.None? && queryOrganization != "" ==>
      r == Ok(AuthContext(false, {}, queryOrganization, {"public"}, {}))
    ensures claim.Some? ==>
      var groups := ExtractGroups(claim.value, loads);
      var organization := ExtractOrganization(groups);
      if organization == "" || (queryOrganization != "" && queryOrganization != organization) then r == Err(403)
      else
        && r.Ok? && r.value.authenticated && r.value.groups == groups && r.value.organization == organization
        && (forall role :: role in r.value.roles <==> CarriesRole(groups, role))
        && "public" in r.value.visibilityFilter && r.value.visibilityFilter <= {"public", "members", "restricted"}
        && ("members" in r.value.visibilityFilter <==>
              || CarriesRole(groups, "admin") || CarriesRole(groups, "editor")
              || organization + ":members" in groups)
        && ("restricted" in r.value.visibilityFilter <==>
              CarriesRole(groups, "admin") || organization + ":restricted" in groups)
    ensures r == Resolved(claim, loads, queryOrganization)
  {
    if claim.None? {
      if queryOrganization == "" {
        return Err(400);
      }
      return Ok(AuthContext(false, {}, queryOrganization, {"public"}, {}));
    }
    var groups := ExtractGroups(claim.value, loads);
    var organization := ExtractOrganization(groups);
    if organization == "" {
      return Err(403);
    }
    if queryOrganization != "" && queryOrganization != organization {
      return Err(403);
    }
    var roles := ExtractRoles(groups);
    var levels := BuildVisibilityFilter(groups, organization);
    assert ALL_VISIBILITY_LEVELS[0] == "public" && ALL_VISIBILITY_LEVELS[1] == "members";
    assert levels == set l | l in ALL_VISIBILITY_LEVELS && MaySee(groups, organization, l);
    assert roles == set r | r in ROLE_GROUPS && CarriesRole(groups, r);
    r := Ok(AuthContext(true, groups, organization, levels, roles));
  }

  /** However the groups are written, the caller gets the same context. */
  lemma FormatsGiveSameContext(groups: seq<string>, loads: string -> Option<seq<string>>, queryOrganization: string)
    requires groups != [] && AreGroupNames(groups)
    requires loads("[" + Join(groups) + "]") == None
    ensures var expected := ContextOf(ToSet(groups), queryOrganization);
      && ContextOf(ExtractGroups(Native(groups), loads), queryOrganization) == expected
      && ContextOf(ExtractGroups(Text(Join(groups)), loads), queryOrganization) == expected
      && ContextOf(ExtractGroups(Text("[" + Join(groups) + "]"), loads), queryOrganization) == expected
  {
    GroupFormatsAgree(groups, loads);
  }

  // ---- Checks on writes -------------------------------------------------------------------

  predicate MayWrite(roles: set<string>) {
    "editor" in roles || "admin" in roles
  }

  /** The members of `properties`; missing or null counts as none. */
  function PropertiesIn(body: Value): map<string, Value>
    requires body.Dict?
  {
    if "properties" in body.entries && body.entries["properties"].Dict?
    then body.entries["properties"].entries
    else map[]
  }

  predicate MayCreate(roles: set<string>, body: Value)
    requires body.Dict?
  {
    "admin" in roles || "visibility" !in PropertiesIn(body)
  }

  predicate Contains(s: string, t: string) {
    t <= s || (s != "" && Contains(s[1..], t))
  }

  /** The check of a POST as the code makes it, before the body is validated: the
      status of the refusal. Bodies of other shapes can raise an exception. */
  function CreateRefusal(roles: set<string>, body: Value): Option<int> {
    if "admin" in roles then None
    else if !body.Dict? then Some(500)
    else if "properties" !in body.entries then None
    else match body.entries["properties"]
      case Dict(properties) => if "visibility" in properties then Some(403) else None
      case List(items) => if Str("visibility") in items then Some(403) else None
      case Str(text) => if Contains(text, "visibility") then Some(403) else None
      case Null => None
      case Bool(b) => if b then Some(500) else None
      case Int(n) => if n != 0 then Some(500) else None
      case Float(x) => if x != 0.0 then Some(500) else None
      case Dec(d) => if d != 0.0 then Some(500) else None
  }

  /** On an object whose properties are an object or none it forbids callers who are
      not admins to name a visibility. */
  lemma CreateRefusalIs(roles: set<string>, body: Value)
    requires body.Dict?
    requires "properties" in body.entries ==> body.entries["properties"].Dict? || body.entries["properties"].Null?
    ensures CreateRefusal(roles, body) ==
      if "admin" in roles || !("properties" in body.entries && body.entries["properties"].Dict?
                               && "visibility" in body.entries["properties"].entries)
      then None else Some(403)
  {
  }

  /** On bodies of other shapes: admins pass, others meet an exception on anything but
      an object and on properties that are `true` or a number other than zero, and are
      forbidden a list or text that holds `visibility`. */
  lemma CreateRefusalOtherwise(roles: set<string>, body: Value)
    ensures "admin" in roles ==> CreateRefusal(roles, body) == None
    ensures "admin" !in roles && !body.Dict? ==> CreateRefusal(roles, body) == Some(500)
    ensures "admin" !in roles && body.Dict? && "properties" in body.entries ==>
      var properties := body.entries["properties"];
      && (properties.List? ==>
            CreateRefusal(roles, body) == if Str("visibility") in properties.items then Some(403) else None)
      && (properties.Str? ==>
            (CreateRefusal(roles, body) == Some(403) <==>
               exists i | 0 <= i <= |properties.s| :: "visibility" <= properties.s[i..])
            && CreateRefusal(roles, body) in {None, Some(403)})
      && (properties.Bool? ==> CreateRefusal(roles, body) == if properties.b then Some(500) else None)
      && (IsNumber(properties) ==> CreateRefusal(roles, body) == if AsReal(properties) != 0.0 then Some(500) else None)
  {
    if body.Dict? && "properties" in body.entries && body.entries["properties"].Str? {
      ContainsMeans(body.entries["properties"].s, "visibility");
    }
  }

  lemma {:induction false} ContainsMeans(s: string, t: string)
    ensures Contains(s, t) <==> exists i | 0 <= i <= |s| :: t <= s[i..]
  {
    assert s[0..] == s;
    if s != "" {
      ContainsMeans(s[1..], t);
      forall i | 0 <= i <= |s[1..]| ensures s[1..][i..] == s[i + 1..] {
      }
      if i :| 0 <= i <= |s| && t <= s[i..] {
        assert i > 0 ==> s[i..] == s[1..][i - 1..];
      }
    }
  }

  predicate MayReplace(roles: set<string>, body: Value, currentVisibility: string)
    requires body.Dict?
  {
    var props := PropertiesIn(body);
    "admin" in roles || ("visibility" in props ==> props["visibility"] == Str(currentVisibility))
  }

  predicate MayUpdate(roles: set<string>, patch: Value)
    requires patch.Dict?
  {
    "admin" in roles || "visibility" !in PropertiesIn(patch)
  }
}
