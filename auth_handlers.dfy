/**
 * Authentication and role-based access control at the HTTP layer: the login
 * endpoint's decisions, the Authorization header check, the table of which
 * role may call which (method, route) pair, and the authorization decision.
 */
module AuthHandlers {
  import opened Wrappers
  import opened CodeError
  import opened Identity
  import opened User
  import opened UserHandlers

  // ---------------------------------------------------------------------------
  // Login
  // ---------------------------------------------------------------------------

  const AuthErrorStatus: map<CodeError.Error, int> := map[
    ErrNotFoundUser := StatusNotFound,
    ErrInvalidPasswordToLogin := StatusBadRequest,
    ErrStorageGet := StatusInternalServerError
  ]

  function MapAuthError(err: AnyError): (int, ApiError) {
    MapErrorWith(AuthErrorStatus, err)
  }

  /** The statuses of the login errors; a save error is not a login error and falls through. */
  lemma MapAuthErrorStatuses(err: AnyError)
    ensures err == Coded(ErrNotFoundUser) ==>
      MapAuthError(err) == (StatusNotFound, ApiError("not_found_user", "not founded the user to get"))
    ensures err == Coded(ErrInvalidPasswordToLogin) ==>
      MapAuthError(err) == (StatusBadRequest, ApiError("invalid_password", "the password received to login is invalid"))
    ensures err == Coded(ErrStorageGet) ==>
      MapAuthError(err) == (StatusInternalServerError, ApiError("storage_failure", "an error ocurred trying to get user"))
    ensures err == Coded(ErrInvalidPasswordToSave) ==>
      MapAuthError(err) == (StatusInternalServerError, ApiError("error", ErrInvalidPasswordToSave.Render()))
  {
  }

  /** The email and password a login request must carry. */
  datatype LoginRequest = LoginRequest(email: string, password: string)

  /**
   * The login endpoint up to issuing the token: a body that does not bind is
   * a 422, a failed login is mapped through the login table, and a successful
   * one answers the claims the token is issued for.
   */
  method Login(users: UserStorage, body: Result<LoginRequest, BindError>, fault: Fault)
    returns (resp: Response<Claims>)
    ensures body.Failure? ==> resp == Reject(StatusUnprocessableEntity, MapValidateError(body.error))
    ensures body.Success? && (fault == Fails(NotFound) || (fault.Healthy? && !HasEmail(users.users, body.value.email))) ==>
      resp == Reject(StatusNotFound, ApiError(ErrNotFoundUser.code, ErrNotFoundUser.detail))
    ensures body.Success? && fault == Fails(Broken) ==>
      resp == Reject(StatusInternalServerError, ApiError(ErrStorageGet.code, ErrStorageGet.detail))
    ensures (body.Success? && fault.Healthy? && HasEmail(users.users, body.value.email)
             && forall k :: k in users.users && users.users[k].secured.email == body.value.email ==>
                  !users.encrypter.compare(users.users[k].password, body.value.password)) ==>
      resp == Reject(StatusBadRequest, ApiError(ErrInvalidPasswordToLogin.code, ErrInvalidPasswordToLogin.detail))
    ensures (body.Success? && fault.Healthy? && HasEmail(users.users, body.value.email)
             && forall k :: k in users.users && users.users[k].secured.email == body.value.email ==>
                  users.encrypter.compare(users.users[k].password, body.value.password)) ==>
      resp.Reply?
    ensures resp.Reject? ==> resp.status in {StatusUnprocessableEntity, StatusNotFound, StatusBadRequest, StatusInternalServerError}
    ensures resp.Reply? ==> resp.status == StatusOK && body.Success?
    ensures resp.Reply? ==>
      (exists k :: k in users.users && users.users[k].secured.email == body.value.email
         && users.encrypter.compare(users.users[k].password, body.value.password)
         && resp.body == Claims(users.users[k].secured.id, users.users[k].secured.role))
  {
    if body.Failure? {
      return Reject(StatusUnprocessableEntity, MapValidateError(body.error));
    }
    var claims := users.Login(body.value.email, body.value.password, fault);
    if claims.Failure? {
      var (code, apiErr) := MapAuthError(Coded(claims.error));
      return Reject(code, apiErr);
    }
    return Reply(StatusOK, claims.value);
  }

  // ---------------------------------------------------------------------------
  // The Authorization header
  // ---------------------------------------------------------------------------

  const BearerSchema := "Bearer "

  const ErrTokenMissing := ApiError("authorization_token_missing", "it was not received the authorization header with token")

  /**
   * What the header check leads to: a 401 with an API error, the token text
   * handed on to validation, or a runtime panic (an out-of-range slice), which
   * the router's recovery turns into a 500 "unexpected_error".
   */
  datatype HeaderCheck = Rejected(error: ApiError) | Token(value: string) | Panicked

  /**
   * The header check as written: an empty header is rejected, and otherwise
   * the token is everything after the first seven characters, whatever they
   * are, and a non-empty header shorter than that cannot be sliced.
   */
  function BearerToken(header: string): (h: HeaderCheck)
    ensures h == Rejected(ErrTokenMissing) <==> header == ""
    ensures h.Panicked? <==> 0 < |header| < |BearerSchema|
    ensures h.Token? ==> |h.value| + |BearerSchema| == |header| && header[|BearerSchema|..] == h.value
  {
    if header == "" then Rejected(ErrTokenMissing)
    else if |header| < |BearerSchema| then Panicked
    else Token(header[|BearerSchema|..])
  }

  /** A three-letter header is not empty, and slicing it from index seven panics. */
  lemma ShortHeaderPanics()
    ensures BearerToken("abc") == Panicked
  {
  }

  /** The scheme is never checked: a header of another scheme loses its first seven characters. */
  lemma SchemeNotChecked()
    ensures BearerToken("Token abcdef") == Token("bcdef")
    ensures BearerToken("Bearer abcdef") == Token("abcdef")
  {
  }

  const ErrNotBearer := ApiError("invalid_token", "the authorization header does not carry a bearer token")

  /** The header check with the slice guarded: a header too short to hold the scheme is a 401. */
  function BearerTokenChecked(header: string): (h: HeaderCheck)
    ensures !h.Panicked?
    ensures h == Rejected(ErrTokenMissing) <==> header == ""
    ensures |header| >= |BearerSchema| ==> h == Token(header[|BearerSchema|..])
  {
    if header == "" then Rejected(ErrTokenMissing)
    else if |header| < |BearerSchema| then Rejected(ErrNotBearer)
    else Token(header[|BearerSchema|..])
  }

  /** The guarded check differs from the written one only where the written one panics. */
  lemma {:induction false} CheckedAgreesUnlessPanic(header: string)
    ensures BearerToken(header).Panicked? || BearerTokenChecked(header) == BearerToken(header)
    ensures BearerToken(header).Panicked? ==> BearerTokenChecked(header) == Rejected(ErrNotBearer)
  {
    if |header| >= |BearerSchema| {
      assert BearerTokenChecked(header) == Token(header[|BearerSchema|..]);
    }
  }

  // ---------------------------------------------------------------------------
  // Role-based access control
  // ---------------------------------------------------------------------------

  /** One grant: `role` may call `verb` on the route `url`. */
  datatype Rule = Rule(url: string, verb: string, role: string)

  /** HTTP method, then route, then the roles granted, in the order they were added. */
  type RuleTable = map<string, map<string, seq<string>>>

  /** The roles granted on (`verb`, `path`), when that pair has an entry. */
  function Entry(t: RuleTable, verb: string, path: string): Option<seq<string>> {
    if verb in t && path in t[verb] then Some(t[verb][path]) else None
  }

  /** Whether the table lets `role` call `verb` on `path`. */
  predicate Allows(t: RuleTable, verb: string, path: string, role: string) {
    verb in t && path in t[verb] && role in t[verb][path]
  }

  /** The table after adding `r`: the missing entries created, the role appended. */
  function WithRule(t: RuleTable, r: Rule): RuleTable {
    var paths := if r.verb in t then t[r.verb] else map[];
    var roles := if r.url in paths then paths[r.url] else [];
    t[r.verb := paths[r.url := roles + [r.role]]]
  }

  /** The table built by adding `rules` in order to an empty one. */
  function TableOf(rules: seq<Rule>): RuleTable {
    if |rules| == 0 then map[] else WithRule(TableOf(rules[..|rules| - 1]), rules[|rules| - 1])
  }

  class Rules {
    var table: RuleTable

    constructor ()
      ensures table == map[]
    {
      table := map[];
    }

    method AddRule(r: Rule)
      modifies this
      ensures table == WithRule(old(table), r)
    {
      ghost var paths := if r.verb in table then table[r.verb] else map[];
      ghost var roles := if r.url in paths then paths[r.url] else [];
      if r.verb !in table {
        table := table[r.verb := map[]];
      }
      if r.url !in table[r.verb] {
        table := table[r.verb := table[r.verb][r.url := []]];
      }
      assert table[r.verb] == paths[r.url := roles];
      table := table[r.verb := table[r.verb][r.url := table[r.verb][r.url] + [r.role]]];
      assert paths[r.url := roles][r.url := roles + [r.role]] == paths[r.url := roles + [r.role]];
    }

    /** A missing method or route grants nothing; otherwise the role is searched for in the route's list. */
    method CanAccess(verb: string, path: string, role: string) returns (ok: bool)
      ensures ok <==> Allows(table, verb, path, role)
    {
      if verb !in table {
        return false;
      }
      if path !in table[verb] {
        return false;
      }
      var accepted := table[verb][path];
      var i := 0;
      while i < |accepted|
        invariant 0 <= i <= |accepted|
        invariant role !in accepted[..i]
      {
        if accepted[i] == role {
          return true;
        }
        assert accepted[..i + 1] == accepted[..i] + [accepted[i]];
        i := i + 1;
      }
      assert accepted[..i] == accepted;
      return false;
    }
  }

  /** Adding a rule grants exactly its triple on top of what was granted before. */
  lemma {:induction false} WithRuleAllows(t: RuleTable, r: Rule, verb: string, path: string, role: string)
    ensures Allows(WithRule(t, r), verb, path, role) <==>
      Allows(t, verb, path, role) || (verb == r.verb && path == r.url && role == r.role)
  {
    if verb == r.verb && path == r.url {
      var roles := if Entry(t, verb, path).Some? then Entry(t, verb, path).value else [];
      assert WithRule(t, r)[verb][path] == roles + [r.role];
    }
  }

  /** Adding a rule only appends to its own entry; every other entry is left as it was. */
  lemma WithRuleAppendsOnly(t: RuleTable, r: Rule, verb: string, path: string)
    ensures (verb, path) != (r.verb, r.url) ==> Entry(WithRule(t, r), verb, path) == Entry(t, verb, path)
    ensures (verb, path) == (r.verb, r.url) ==>
      Entry(WithRule(t, r), verb, path) == Some((if Entry(t, verb, path).Some? then Entry(t, verb, path).value else []) + [r.role])
  {
  }

  /** A table built from a list of rules grants exactly the listed triples. */
  lemma {:induction false} TableOfAllows(rules: seq<Rule>, verb: string, path: string, role: string)
    ensures Allows(TableOf(rules), verb, path, role) <==> Rule(path, verb, role) in rules
    decreases |rules|
  {
    if |rules| > 0 {
      var init := rules[..|rules| - 1];
      TableOfAllows(init, verb, path, role);
      WithRuleAllows(TableOf(init), rules[|rules| - 1], verb, path, role);
      assert rules == init + [rules[|rules| - 1]];
    }
  }

  /** The grants the service starts with. */
  const RoleControlRules: seq<Rule> := [
    Rule("/v1/user/", "POST", RoleAdmin),
    Rule("/v1/user/:id", "GET", RoleAdmin),
    Rule("/v1/user/drivers", "GET", RoleAdmin),
    Rule("/v1/travel/", "POST", RoleAdmin),
    Rule("/v1/travel/:id", "GET", RoleAdmin),
    Rule("/v1/travel/:id", "GET", RoleDriver),
    Rule("/v1/travel/:id", "PUT", RoleDriver),
    Rule("/v1/travel/:id", "PUT", RoleAdmin)
  ]

  lemma TableOfAppend(rules: seq<Rule>, r: Rule)
    ensures TableOf(rules + [r]) == WithRule(TableOf(rules), r)
  {
    assert (rules + [r])[..|rules|] == rules;
  }

  /** A fresh table holding the starting grants, added one by one in the order listed. */
  method NewRoleControl() returns (rules: Rules)
    ensures fresh(rules)
    ensures rules.table == TableOf(RoleControlRules)
  {
    rules := new Rules();
    for i := 0 to |RoleControlRules|
      invariant rules.table == TableOf(RoleControlRules[..i])
    {
      assert RoleControlRules[..i + 1] == RoleControlRules[..i] + [RoleControlRules[i]];
      TableOfAppend(RoleControlRules[..i], RoleControlRules[i]);
      rules.AddRule(RoleControlRules[i]);
    }
    assert RoleControlRules[..|RoleControlRules|] == RoleControlRules;
  }

  /** The user routes and travel creation are granted to admins only. */
  lemma {:induction false} RoleControlAdminOnly(role: string)
    ensures Allows(TableOf(RoleControlRules), "POST", "/v1/user/", role) <==> role == RoleAdmin
    ensures Allows(TableOf(RoleControlRules), "GET", "/v1/user/:id", role) <==> role == RoleAdmin
    ensures Allows(TableOf(RoleControlRules), "GET", "/v1/user/drivers", role) <==> role == RoleAdmin
    ensures Allows(TableOf(RoleControlRules), "POST", "/v1/travel/", role) <==> role == RoleAdmin
  {
    TableOfAllows(RoleControlRules, "POST", "/v1/user/", role);
    TableOfAllows(RoleControlRules, "GET", "/v1/user/:id", role);
    TableOfAllows(RoleControlRules, "GET", "/v1/user/drivers", role);
    TableOfAllows(RoleControlRules, "POST", "/v1/travel/", role);
  }

  /** Reading and editing one travel is granted to admins and drivers. */
  lemma {:induction false} RoleControlShared(role: string)
    ensures Allows(TableOf(RoleControlRules), "GET", "/v1/travel/:id", role) <==> role == RoleAdmin || role == RoleDriver
    ensures Allows(TableOf(RoleControlRules), "PUT", "/v1/travel/:id", role) <==> role == RoleAdmin || role == RoleDriver
  {
    TableOfAllows(RoleControlRules, "GET", "/v1/travel/:id", role);
    TableOfAllows(RoleControlRules, "PUT", "/v1/travel/:id", role);
  }

  /** The starting table grants nothing to a role other than admin and driver. */
  lemma {:induction false} RoleControlKnownRolesOnly(verb: string, path: string, role: string)
    ensures Allows(TableOf(RoleControlRules), verb, path, role) ==> role == RoleAdmin || role == RoleDriver
  {
    TableOfAllows(RoleControlRules, verb, path, role);
  }

  const AuthorizeFailure := "authorize_failure"

  /**
   * The authorization step: with no claims on the request, or claims whose
   * role the table does not grant on the route pattern, the request stops
   * with a 401; otherwise it goes on (None). The message names the request's
   * actual URL path, not the route pattern.
   */
  method AuthorizeRequest(rules: Rules, claims: Option<Claims>, verb: string, routePattern: string, urlPath: string)
    returns (denied: Option<ApiError>)
    ensures denied.None? <==> claims.Some? && Allows(rules.table, verb, routePattern, claims.value.role)
    ensures claims.None? ==> denied == Some(ApiError(AuthorizeFailure, "cannot authorize user"))
    ensures claims.Some? && denied.Some? ==>
      denied.value == ApiError(AuthorizeFailure,
        "cannot authorize user with role: " + claims.value.role + " on " + verb + " to " + urlPath)
  {
    if claims.None? {
      return Some(ApiError(AuthorizeFailure, "cannot authorize user"));
    }
    var ok := rules.CanAccess(verb, routePattern, claims.value.role);
    if !ok {
      return Some(ApiError(AuthorizeFailure,
        "cannot authorize user with role: " + claims.value.role + " on " + verb + " to " + urlPath));
    }
    return None;
  }
}
