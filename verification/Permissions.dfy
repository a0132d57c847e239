/** app/api_auth.py, app/auth_utils.py and app/api_tokens.py: three rules matching one permission against
    grants. */
module Permissions {
  import opened PyText

  /** A page or API permission may be granted as it is or through a wildcard `prefix.*`. */
  datatype Profile = Profile(superuser: bool, grants: seq<string>)

  predicate EndsWithStar(rule: string) {
    |rule| >= 2 && rule[|rule| - 2..] == ".*"
  }

  predicate StartsWith(s: string, prefix: string) {
    |prefix| <= |s| && s[..|prefix|] == prefix
  }

  /** `s.rsplit(".", 1)[0]` for text that has a dot. */
  function BeforeLastDot(s: string): (prefix: string)
    requires '.' in s
  {
    if s[|s| - 1] == '.' then s[..|s| - 1] else BeforeLastDot(s[..|s| - 1])
  }

  /** The API decorator: the permission itself, or its parent's wildcard. */
  predicate ApiAllows(profile: Profile, permission: string) {
    || profile.superuser
    || permission in profile.grants
    || ('.' in permission && BeforeLastDot(permission) + ".*" in profile.grants)
  }

  /** A wildcard the page rule accepts. */
  predicate CoversPage(rule: string, endpoint: string) {
    EndsWithStar(rule) && StartsWith(endpoint, rule[..|rule| - 2] + ".")
  }

  predicate PageAllows(profile: Profile, alwaysAllowed: set<string>, endpoint: string) {
    || endpoint == ""
    || profile.superuser
    || endpoint in alwaysAllowed
    || endpoint in profile.grants
    || exists i :: 0 <= i < |profile.grants| && CoversPage(profile.grants[i], endpoint)
  }

  predicate CoversScope(scope: string, required: string) {
    EndsWithStar(scope) && (required == scope[..|scope| - 2] || StartsWith(required, scope[..|scope| - 2] + "."))
  }

  /** The comma-separated scopes of a token, stripped, blanks dropped. */
  function Scopes(granted: string): set<string> {
    var pieces := Split(granted, ',');
    set i | 0 <= i < |pieces| && Strip(pieces[i]) != "" :: Strip(pieces[i])
  }

  predicate TokenAllows(granted: string, required: string) {
    || "*" in Scopes(granted)
    || required in Scopes(granted)
    || exists s :: s in Scopes(granted) && CoversScope(s, required)
  }

  // ---- what the rules mean -------------------------------------------------------------

  /** A wildcard for the part of `permission` before the dot at `k` is granted. */
  predicate GrantedAt(grants: seq<string>, permission: string, k: int) {
    0 <= k < |permission| && permission[k] == '.' && permission[..k] + ".*" in grants
  }

  predicate IsLastDot(s: string, k: int) {
    0 <= k < |s| && s[k] == '.' && forall m :: k < m < |s| ==> s[m] != '.'
  }

  lemma {:induction false} LastDotPrefix(s: string, k: int)
    requires IsLastDot(s, k)
    ensures '.' in s && BeforeLastDot(s) == s[..k]
  {
    if k < |s| - 1 {
      var init := s[..|s| - 1];
      assert IsLastDot(init, k);
      LastDotPrefix(init, k);
      assert init[..k] == s[..k];
    }
  }

  lemma {:induction false} HasLastDot(s: string)
    requires '.' in s
    ensures exists k :: IsLastDot(s, k)
  {
    if s[|s| - 1] == '.' {
      assert IsLastDot(s, |s| - 1);
    } else {
      var init := s[..|s| - 1];
      HasLastDot(init);
      var k :| IsLastDot(init, k);
      assert IsLastDot(s, k);
    }
  }

  /** The API rule looks at the last dot only. */
  lemma ApiIff(grants: seq<string>, permission: string)
    ensures ApiAllows(Profile(false, grants), permission) <==>
              permission in grants || exists k :: IsLastDot(permission, k) && GrantedAt(grants, permission, k)
  {
    if '.' in permission {
      HasLastDot(permission);
      var k :| IsLastDot(permission, k);
      LastDotPrefix(permission, k);
      forall m | IsLastDot(permission, m) ensures permission[..m] == permission[..k] {
        LastDotPrefix(permission, m);
      }
    }
  }

  lemma CoversAt(rule: string, endpoint: string)
    ensures CoversPage(rule, endpoint) <==>
              exists k :: 0 <= k < |endpoint| && endpoint[k] == '.' && rule == endpoint[..k] + ".*"
  {
    if CoversPage(rule, endpoint) {
      var k := |rule| - 2;
      assert endpoint[..k + 1] == rule[..k] + ".";
      assert endpoint[k] == endpoint[..k + 1][k] && endpoint[..k] == endpoint[..k + 1][..k];
      assert rule == rule[..k] + rule[k..];
    }
    if k :| 0 <= k < |endpoint| && endpoint[k] == '.' && rule == endpoint[..k] + ".*" {
      assert rule[..|rule| - 2] == endpoint[..k] && rule[|rule| - 2..] == ".*";
      assert endpoint[..k + 1] == endpoint[..k] + ".";
    }
  }

  /** The page rule looks at every dot. */
  lemma PageIff(grants: seq<string>, endpoint: string)
    requires endpoint != ""
    ensures PageAllows(Profile(false, grants), {}, endpoint) <==>
              endpoint in grants || exists k :: GrantedAt(grants, endpoint, k)
  {
    forall i | 0 <= i < |grants|
      ensures CoversPage(grants[i], endpoint) <==>
                exists k :: 0 <= k < |endpoint| && endpoint[k] == '.' && grants[i] == endpoint[..k] + ".*"
    {
      CoversAt(grants[i], endpoint);
    }
    if k :| GrantedAt(grants, endpoint, k) {
      var i :| 0 <= i < |grants| && grants[i] == endpoint[..k] + ".*";
      assert CoversPage(grants[i], endpoint);
    }
    if i :| 0 <= i < |grants| && CoversPage(grants[i], endpoint) {
      var k :| 0 <= k < |endpoint| && endpoint[k] == '.' && grants[i] == endpoint[..k] + ".*";
      assert GrantedAt(grants, endpoint, k);
    }
  }

  /** Superusers pass both rules; the page rule also lets through requests without an endpoint and the
      endpoints open to everyone, whatever is granted. */
  lemma OpenToAll(grants: seq<string>, alwaysAllowed: set<string>, endpoint: string)
    ensures ApiAllows(Profile(true, grants), endpoint) && PageAllows(Profile(true, grants), alwaysAllowed, endpoint)
    ensures PageAllows(Profile(false, grants), alwaysAllowed, endpoint) <==>
              endpoint == "" || endpoint in alwaysAllowed || PageAllows(Profile(false, grants), {}, endpoint)
  {
  }

  // ---- tokens carry the same grants ------------------------------------------------------

  predicate Clean(grants: seq<string>) {
    Free(grants, ',') && forall i :: 0 <= i < |grants| ==> Trimmed(grants[i])
  }

  ghost predicate HeldBy(pieces: seq<string>, scope: string) {
    exists i :: 0 <= i < |pieces| && Surrounds(pieces[i], scope)
  }

  /** A token's scopes are its comma-separated pieces without the white space around them; blank pieces give
      none. */
  lemma ScopesIff(granted: string, scope: string)
    ensures scope in Scopes(granted) <==> scope != "" && HeldBy(Split(granted, ','), scope)
  {
    var pieces := Split(granted, ',');
    if scope in Scopes(granted) {
      var i :| 0 <= i < |pieces| && Strip(pieces[i]) != "" && Strip(pieces[i]) == scope;
      SurroundsIsStrip(pieces[i], scope);
    }
    forall i | 0 <= i < |pieces| && scope != "" && Surrounds(pieces[i], scope)
      ensures scope in Scopes(granted)
    {
      SurroundsIsStrip(pieces[i], scope);
    }
  }

  lemma ScopesOfJoin(grants: seq<string>)
    requires Clean(grants)
    ensures forall s :: s in Scopes(Join(grants, ',')) <==> s in grants && s != ""
  {
    forall i | 0 <= i < |grants| ensures Strip(grants[i]) == grants[i] {
      StripTrimmed(grants[i]);
    }
    if grants == [] {
      assert Split("", ',') == [""];
    } else {
      SplitJoin(grants, ',');
    }
  }

  /** Beyond the page rule, a token also honours `*` and a wildcard on the permission itself. */
  lemma TokenIff(grants: seq<string>, required: string)
    requires Clean(grants) && required != ""
    ensures TokenAllows(Join(grants, ','), required) <==>
              || PageAllows(Profile(false, grants), {}, required)
              || "*" in grants
              || required + ".*" in grants
  {
    ScopesOfJoin(grants);
    var scopes := Scopes(Join(grants, ','));
    if s :| s in scopes && CoversScope(s, required) {
      assert s == s[..|s| - 2] + s[|s| - 2..];
    }
    if required + ".*" in grants {
      var s := required + ".*";
      assert s[..|s| - 2] == required && s[|s| - 2..] == ".*";
      assert s in scopes && CoversScope(s, required);
    }
    if i :| 0 <= i < |grants| && CoversPage(grants[i], required) {
      assert grants[i] in scopes && CoversScope(grants[i], required);
    }
  }

  /** Each rule accepts whatever the one before it accepts. */
  lemma RulesFormChain(grants: seq<string>, permission: string)
    requires Clean(grants) && permission != ""
    ensures ApiAllows(Profile(false, grants), permission) ==> PageAllows(Profile(false, grants), {}, permission)
    ensures PageAllows(Profile(false, grants), {}, permission) ==> TokenAllows(Join(grants, ','), permission)
  {
    ApiIff(grants, permission);
    PageIff(grants, permission);
    TokenIff(grants, permission);
  }

  /** More grants never take a permission away. */
  lemma RulesMonotone(fewer: seq<string>, more: seq<string>, permission: string)
    requires Clean(fewer) && Clean(more) && permission != "" && forall g :: g in fewer ==> g in more
    ensures ApiAllows(Profile(false, fewer), permission) ==> ApiAllows(Profile(false, more), permission)
    ensures PageAllows(Profile(false, fewer), {}, permission) ==> PageAllows(Profile(false, more), {}, permission)
    ensures TokenAllows(Join(fewer, ','), permission) ==> TokenAllows(Join(more, ','), permission)
  {
    PageIff(fewer, permission);
    PageIff(more, permission);
    TokenIff(fewer, permission);
    TokenIff(more, permission);
    if k :| GrantedAt(fewer, permission, k) {
      assert GrantedAt(more, permission, k);
    }
  }

  /** The API and page rules agree on every set of grants exactly for permissions with at most one dot. */
  lemma ApiEqualsPageIff(permission: string)
    requires permission != ""
    ensures (forall grants: seq<string> ::
               ApiAllows(Profile(false, grants), permission) <==> PageAllows(Profile(false, grants), {}, permission))
            <==> !TwoDots(permission)
  {
    if j, k :| 0 <= j < k < |permission| && permission[j] == '.' && permission[k] == '.' {
      var grants := [permission[..j] + ".*"];
      assert GrantedAt(grants, permission, j);
      PageIff(grants, permission);
      ApiIff(grants, permission);
      HigherWildcardMissesApi(permission, j, k);
    } else {
      forall grants: seq<string>
        ensures ApiAllows(Profile(false, grants), permission) <==> PageAllows(Profile(false, grants), {}, permission)
      {
        PageIff(grants, permission);
        ApiIff(grants, permission);
        if k :| GrantedAt(grants, permission, k) {
          assert IsLastDot(permission, k);
        }
      }
    }
  }

  predicate TwoDots(s: string) {
    exists j, k :: 0 <= j < k < |s| && s[j] == '.' && s[k] == '.'
  }

  lemma HigherWildcardMissesApi(permission: string, j: int, k: int)
    requires 0 <= j < k < |permission| && permission[j] == '.' && permission[k] == '.'
    ensures !ApiAllows(Profile(false, [permission[..j] + ".*"]), permission)
  {
    var rule := permission[..j] + ".*";
    var grants := [rule];
    ApiIff(grants, permission);
    assert rule[j + 1] == '*' && |rule| == j + 2;
    assert |permission| == |rule| ==> permission[j + 1] == '.' && rule[j + 1] == '*';
    forall m | IsLastDot(permission, m) ensures permission[..m] + ".*" != rule {
      assert |permission[..m] + ".*"| == m + 2;
    }
  }
}
