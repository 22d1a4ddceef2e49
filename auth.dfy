/** Bearer-token extraction, role derivation and the authorization guards of
    backend/src/middleware/auth.ts. Signature and expiry checking of the token is
    an oracle passed in by the caller. */
module Auth {
  import opened Wrappers
  import opened Strings

  datatype Role = Guest | User | Admin

  datatype AuthUser = AuthUser(sub: string, email: string, role: Role, groups: seq<string>)

  datatype AuthResult = AuthResult(isAuthenticated: bool, user: Option<AuthUser>, error: Option<string>)

  /** Request headers by name; absent headers are an empty map. */
  type Headers = map<string, string>

  /** The claims of a verified access token that the backend reads. */
  datatype Claims = Claims(sub: string, email: Option<string>, username: Option<string>, groups: Option<seq<string>>)

  /** What the token verifier does with a token: return its claims, or throw. A thrown
      `Error` carries its message; any other thrown value carries none. */
  datatype Verification = Verified(claims: Claims) | Threw(message: Option<string>)

  /** The configured verifier built by `getVerifier`. */
  datatype VerifierHandle = VerifierHandle(userPoolId: string, tokenUse: string, clientId: string)

  /** The external signature/expiry check. */
  type Verifier = (VerifierHandle, string) -> Verification

  const ConfigMissing := "Auth configuration missing"
  const VerificationFailed := "Token verification failed"

  /** The raw header value: `authorization`, else `Authorization`. An empty value counts as
      missing, since `a || b` falls through falsy strings. */
  function AuthorizationHeader(headers: Headers): (h: Option<string>)
    ensures h.Some? ==> h.value != ""
    ensures h.None? <==> (("authorization" !in headers || headers["authorization"] == "")
                        && ("Authorization" !in headers || headers["Authorization"] == ""))
    ensures "authorization" in headers && headers["authorization"] != "" ==> h == Some(headers["authorization"])
    ensures ("authorization" !in headers || headers["authorization"] == "") &&
            "Authorization" in headers && headers["Authorization"] != "" ==>
              h == Some(headers["Authorization"])
  {
    if "authorization" in headers && headers["authorization"] != "" then Some(headers["authorization"])
    else if "Authorization" in headers && headers["Authorization"] != "" then Some(headers["Authorization"])
    else None
  }

  /** `extractToken`: the header split on single spaces must give exactly `Bearer` and the token. */
  function ExtractToken(headers: Headers): (token: Option<string>)
    ensures AuthorizationHeader(headers).None? ==> token.None?
    ensures token.Some? ==> AuthorizationHeader(headers) == Some("Bearer " + token.value) && ' ' !in token.value
  {
    match AuthorizationHeader(headers)
    case None => None
    case Some(h) =>
      var parts := Split(h, ' ');
      if |parts| != 2 || parts[0] != "Bearer" then None
      else
        SplitInTwo(h, ' ', "Bearer", parts[1]);
        assert "Bearer" + [' '] + parts[1] == "Bearer " + parts[1];
        Some(parts[1])
  }

  /** A token is extracted exactly when the header is `Bearer`, one space, and a token
      without spaces; the scheme is case-sensitive. */
  lemma ExtractTokenExactly(headers: Headers, token: string)
    ensures ExtractToken(headers) == Some(token) <==>
            (AuthorizationHeader(headers) == Some("Bearer " + token) && ' ' !in token)
  {
    match AuthorizationHeader(headers)
    case None =>
    case Some(h) =>
      SplitInTwo(h, ' ', "Bearer", token);
      assert "Bearer" + [' '] + token == "Bearer " + token;
      if ExtractToken(headers) == Some(token) {
        assert Split(h, ' ') == ["Bearer", token];
      }
  }

  /** A header with any number of spaces other than one yields no token, e.g. two spaces. */
  lemma OtherSpacingRejected(headers: Headers)
    requires AuthorizationHeader(headers).Some?
    requires multiset(AuthorizationHeader(headers).value)[' '] != 1
    ensures ExtractToken(headers) == None
  {
    SplitCount(AuthorizationHeader(headers).value, ' ');
  }

  /** `determineRole`: admin iff the groups contain "admin"; never a guest. */
  function DetermineRole(groups: seq<string>): (role: Role)
    ensures role == Admin <==> "admin" in groups
    ensures role != Guest
  {
    if "admin" in groups then Admin else User
  }

  /** The user built from verified claims: groups default to none, email falls back to
      the username and then to "". */
  function UserFromClaims(c: Claims): (u: AuthUser)
    ensures u.sub == c.sub && u.groups == c.groups.GetOr([])
    ensures u.role == DetermineRole(u.groups)
    ensures u.email == (if c.email.Some? && c.email.value != "" then c.email.value
                        else if c.username.Some? && c.username.value != "" then c.username.value
                        else "")
  {
    var groups := c.groups.GetOr([]);
    var email := if c.email.Some? && c.email.value != "" then c.email.value
                 else c.username.GetOr("");
    AuthUser(c.sub, email, DetermineRole(groups), groups)
  }

  /** The result `verifyAuth` builds from the extracted token and the verifier handle. */
  function AuthOutcome(token: Option<string>, handle: Option<VerifierHandle>, verify: Verifier): (r: AuthResult)
    ensures (token.None? || token.value == "") ==> r == AuthResult(false, None, None)
    ensures token.Some? && token.value != "" && handle.None? ==> r == AuthResult(false, None, Some(ConfigMissing))
    ensures r.isAuthenticated <==> r.user.Some?
    ensures r.isAuthenticated ==> r.error.None? && r.user.value.role != Guest
  {
    if token.None? || token.value == "" then AuthResult(false, None, None)
    else if handle.None? then AuthResult(false, None, Some(ConfigMissing))
    else
      match verify(handle.value, token.value)
      case Verified(c) => AuthResult(true, Some(UserFromClaims(c)), None)
      case Threw(m) => AuthResult(false, None, Some(m.GetOr(VerificationFailed)))
  }

  /** A token the verifier accepts authenticates its subject; one it rejects does not, and
      the thrown message is passed on. */
  lemma VerifiedTokenAuthenticates(token: string, handle: VerifierHandle, verify: Verifier)
    requires token != ""
    ensures verify(handle, token).Verified? ==>
              AuthOutcome(Some(token), Some(handle), verify)
                == AuthResult(true, Some(UserFromClaims(verify(handle, token).claims)), None)
    ensures verify(handle, token).Threw? ==>
              AuthOutcome(Some(token), Some(handle), verify)
                == AuthResult(false, None, Some(verify(handle, token).message.GetOr(VerificationFailed)))
  {
  }

  /** "Bearer " with nothing after it extracts the empty token, which counts as no token. */
  lemma EmptyBearerIsGuest(headers: Headers, handle: Option<VerifierHandle>, verify: Verifier)
    requires AuthorizationHeader(headers) == Some("Bearer ")
    ensures AuthOutcome(ExtractToken(headers), handle, verify) == AuthResult(false, None, None)
  {
    ExtractTokenExactly(headers, "");
    assert "Bearer " + "" == "Bearer ";
  }

  /** The handle `getVerifier` builds when both identifiers are configured. */
  function ConfiguredHandle(userPoolId: string, clientId: string): (h: Option<VerifierHandle>)
    ensures h.Some? <==> userPoolId != "" && clientId != ""
    ensures h.Some? ==> h.value.userPoolId == userPoolId && h.value.clientId == clientId
                        && h.value.tokenUse == "access"
  {
    if userPoolId != "" && clientId != "" then Some(VerifierHandle(userPoolId, "access", clientId)) else None
  }

  /** The module-level state of auth.ts: the configuration read from the environment and
      the lazily created verifier. */
  class AuthContext {
    const userPoolId: string
    const clientId: string
    var verifier: Option<VerifierHandle>

    constructor (userPoolId: string, clientId: string)
      ensures this.userPoolId == userPoolId && this.clientId == clientId && verifier == None
    {
      this.userPoolId := userPoolId;
      this.clientId := clientId;
      verifier := None;
    }

    /** `getVerifier`: creates the handle on first use when configured; once set it never changes. */
    method GetVerifier() returns (h: Option<VerifierHandle>)
      modifies this
      ensures old(verifier).Some? ==> verifier == old(verifier)
      ensures old(verifier).None? ==> verifier == ConfiguredHandle(userPoolId, clientId)
      ensures h == verifier
    {
      if verifier.None? && userPoolId != "" && clientId != "" {
        verifier := Some(VerifierHandle(userPoolId, "access", clientId));
      }
      h := verifier;
    }

    /** `verifyAuth`: the verifier is only built when a token is present. */
    method VerifyAuth(headers: Headers, verify: Verifier) returns (r: AuthResult)
      modifies this
      ensures var token := ExtractToken(headers);
              if token.None? || token.value == "" then verifier == old(verifier)
              else verifier == (if old(verifier).Some? then old(verifier) else ConfiguredHandle(userPoolId, clientId))
      ensures r == AuthOutcome(ExtractToken(headers), verifier, verify)
    {
      var token := ExtractToken(headers);
      if token.None? || token.value == "" {
        return AuthResult(false, None, None);
      }
      var handle := GetVerifier();
      r := AuthOutcome(token, handle, verify);
    }
  }

  /** `requireAuth`: passing it guarantees a user is present. */
  function RequireAuth(auth: AuthResult): (ok: bool)
    ensures ok ==> auth.user.Some?
    ensures !auth.isAuthenticated ==> !ok
  {
    auth.isAuthenticated && auth.user.Some?
  }

  /** For a result `verifyAuth` builds, `requireAuth` passes exactly when it is authenticated. */
  lemma RequireAuthIffAuthenticated(token: Option<string>, handle: Option<VerifierHandle>, verify: Verifier)
    ensures RequireAuth(AuthOutcome(token, handle, verify)) <==> AuthOutcome(token, handle, verify).isAuthenticated
  {
  }

  /** `requireRole`: authenticated and holding one of the roles. */
  function RequireRole(auth: AuthResult, requiredRoles: seq<Role>): (ok: bool)
    ensures ok <==> RequireAuth(auth) && auth.user.value.role in requiredRoles
    ensures !RequireAuth(auth) ==> !ok
  {
    if !RequireAuth(auth) then false else auth.user.value.role in requiredRoles
  }

  /** `requireAdmin`: an admin is always authenticated. */
  function RequireAdmin(auth: AuthResult): (ok: bool)
    ensures ok ==> RequireAuth(auth)
    ensures ok <==> RequireAuth(auth) && auth.user.value.role == Admin
  {
    RequireRole(auth, [Admin])
  }

  /** An admin is exactly a verified user whose token lists the "admin" group. */
  lemma AdminIffAdminGroup(token: string, handle: VerifierHandle, verify: Verifier)
    requires token != ""
    ensures RequireAdmin(AuthOutcome(Some(token), Some(handle), verify)) <==>
            (verify(handle, token).Verified? && "admin" in verify(handle, token).claims.groups.GetOr([]))
  {
  }
}
