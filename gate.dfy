/**
 * The request gate (`middleware`): every request ends in exactly one of
 * a bypass of a public route, a pass-through with the enriched header map,
 * 401 or 403, decided in a fixed order: public routes, token presence, claim
 * sanity, header enrichment, the self-access rule for `/api/users/...`, and
 * the permission table.
 */
module Gate {

  import opened Wrappers
  import opened Text
  import opened Roles
  import opened Permissions
  import opened Auth

  /** What the gate reads of an inbound request. */
  datatype Request = Request(
    path: string,                   // request.nextUrl.pathname
    httpMethod: string,             // request.method
    authCookie: Option<string>,     // request.cookies.get('auth-token')?.value
    headers: map<string, string>)   // request.headers

  /** The error tags of the rejections (the JSON bodies are not modelled). */
  datatype Reason =
    | AuthRequired             // no usable token
    | InvalidUser              // verification failed, or the user lacks an id or a role
    | InvalidToken             // any other failure in the try block: a role outside UserRole
    | ForbiddenOwnData         // a `/api/users/...` path that is not the caller's own record
    | InsufficientPermissions  // no rule of the permission table admits the request

  /**
   * `Bypass` is the bare `NextResponse.next()` of a public route; `Next(h)` is
   * `NextResponse.next({ headers: h })`; `Reject` is an error response.
   */
  datatype Outcome = Bypass | Next(headers: map<string, string>) | Reject(reason: Reason) {
    /** The request goes on to its route. */
    predicate Passes() {
      !Reject?
    }

    /** The HTTP status of a rejection. */
    function Status(): int
      requires Reject?
    {
      match reason
      case AuthRequired | InvalidUser | InvalidToken => 401
      case ForbiddenOwnData | InsufficientPermissions => 403
    }
  }

  const PUBLIC_ROUTES: seq<string> := ["/api/auth/login", "/api/auth/register", "/api/auth/logout"]
  const USERS_PREFIX: string := "/api/users/"

  const USER_ID_HEADER: string := "x-user-id"
  const USER_ROLE_HEADER: string := "x-user-role"
  const USER_LIBRARY_HEADER: string := "x-user-library-id"
  const REQUESTED_USER_HEADER: string := "x-requested-user-id"

  /** `!token || token.trim() === ''` */
  predicate TokenMissing(token: Option<string>) {
    token.None? || Trim(token.value) == ""
  }

  /** JavaScript truthiness of an optional number. */
  predicate Truthy(n: Option<int>) {
    n.Some? && n.value != 0
  }

  /** JavaScript truthiness of an optional string. */
  predicate TruthyString(s: Option<string>) {
    s.Some? && s.value != ""
  }

  /** The claim the gate accepts: a user object with a non-zero id and one of the four roles. */
  predicate ClaimAccepted(user: Option<Payload>) {
    user.Some? && Truthy(user.value.id) && user.value.role.Some? && user.value.role.value in VALID_ROLES
  }

  /** The claim checks of the try block: a user object, a truthy id and role, and a role of `UserRole`. */
  function ValidateUser(user: Option<Payload>): (r: Result<Payload, Reason>)
    ensures r.Success? <==> ClaimAccepted(user)
    ensures r.Success? ==> r.value == user.value
    ensures r.Failure? ==> r.error == InvalidUser || r.error == InvalidToken
    ensures r == Failure(InvalidUser) <==>
      user.None? || !Truthy(user.value.id) || !TruthyString(user.value.role)
    ensures r == Failure(InvalidToken) <==>
      user.Some? && Truthy(user.value.id) && TruthyString(user.value.role) && user.value.role.value !in VALID_ROLES
  {
    if user.None? || !Truthy(user.value.id) || !TruthyString(user.value.role) then Failure(InvalidUser)
    else if user.value.role.value !in VALID_ROLES then Failure(InvalidToken)
    else Success(user.value)
  }

  /** The headers after enrichment: caller id and role, and the library when `user.library` is truthy. */
  function EnrichedHeaders(incoming: map<string, string>, user: Payload): map<string, string>
    requires user.id.Some? && user.role.Some?
  {
    var h := incoming[USER_ID_HEADER := IntToString(user.id.value)][USER_ROLE_HEADER := user.role.value];
    if Truthy(user.library) then h[USER_LIBRARY_HEADER := IntToString(user.library.value)] else h
  }

  /** The self-access rule: the alias `me`, the caller's own id, or the administrator. */
  predicate SelfAccess(userIdInPath: string, user: Payload)
    requires user.id.Some? && user.role.Some?
  {
    userIdInPath == "me" || userIdInPath == IntToString(user.id.value) || user.role.value == ADMIN
  }

  /** The decision of the gate, stage by stage. */
  function Decide(req: Request, verify: string -> Option<Payload>): Outcome {
    if req.path in PUBLIC_ROUTES then Bypass
    else if TokenMissing(req.authCookie) then Reject(AuthRequired)
    else
      match ValidateUser(verify(req.authCookie.value))
      case Failure(e) => Reject(e)
      case Success(user) => Authorize(req, user)
  }

  /** The stages after the claim is accepted: enrichment, the self-access rule, the permission table. */
  function Authorize(req: Request, user: Payload): Outcome
    requires user.id.Some? && user.role.Some?
  {
    var h := EnrichedHeaders(req.headers, user);
    var usersPath := StartsWith(req.path, USERS_PREFIX);
    var userIdInPath := LastSegment(req.path);
    if usersPath && !SelfAccess(userIdInPath, user) then Reject(ForbiddenOwnData)
    else
      var h' := if usersPath && userIdInPath == "me"
                then h[REQUESTED_USER_HEADER := IntToString(user.id.value)] else h;
      if !HasPermission(user.role.value, req.path, req.httpMethod) then Reject(InsufficientPermissions)
      else Next(h')
  }

  /** The `Headers` object the gate copies from the request and updates in place. */
  class HeaderMap {
    var entries: map<string, string>

    constructor (init: map<string, string>)
      ensures entries == init
    {
      entries := init;
    }

    /** `headers.set(name, value)` */
    method Set(name: string, value: string)
      modifies this
      ensures entries == old(entries)[name := value]
    {
      entries := entries[name := value];
    }
  }

  /**
   * `middleware(request)`, with early returns and in-place header updates.
   * `verified` tells whether the token oracle was consulted.
   */
  method Middleware(req: Request, verify: string -> Option<Payload>) returns (out: Outcome, verified: bool)
    ensures out == Decide(req, verify)
    ensures verified <==> req.path !in PUBLIC_ROUTES && !TokenMissing(req.authCookie)
  {
    verified := false;
    var path, token := req.path, req.authCookie;
    if path in PUBLIC_ROUTES {
      return Bypass, verified;
    }
    if token.None? || Trim(token.value) == "" {
      assert TokenMissing(token);
      return Reject(AuthRequired), verified;
    }
    var user := verify(token.value);
    verified := true;
    if user.None? || !Truthy(user.value.id) || !TruthyString(user.value.role) {
      assert ValidateUser(user) == Failure(InvalidUser);
      return Reject(InvalidUser), verified;
    }
    if user.value.role.value !in VALID_ROLES {
      assert ValidateUser(user) == Failure(InvalidToken);
      return Reject(InvalidToken), verified;
    }
    assert ValidateUser(user) == Success(user.value);
    out := Authorized(req, user.value);
  }

  /** The rest of `middleware` once the claim is accepted: header enrichment, self-access, the table. */
  method Authorized(req: Request, user: Payload) returns (out: Outcome)
    requires user.id.Some? && user.role.Some?
    ensures out == Authorize(req, user)
  {
    var path, id, role := req.path, user.id.value, user.role.value;
    var requestHeaders := new HeaderMap(req.headers);
    requestHeaders.Set(USER_ID_HEADER, IntToString(id));
    requestHeaders.Set(USER_ROLE_HEADER, role);
    if Truthy(user.library) {
      requestHeaders.Set(USER_LIBRARY_HEADER, IntToString(user.library.value));
    }
    assert requestHeaders.entries == EnrichedHeaders(req.headers, user);
    if StartsWith(path, USERS_PREFIX) {
      var segments := Split(path);
      var userIdInPath := segments[|segments| - 1];
      assert userIdInPath == LastSegment(path);
      var isSelfAccess := userIdInPath == "me" || userIdInPath == IntToString(id) || role == ADMIN;
      if !isSelfAccess {
        return Reject(ForbiddenOwnData);
      }
      if userIdInPath == "me" {
        requestHeaders.Set(REQUESTED_USER_HEADER, IntToString(id));
      }
    }
    if !HasPermission(role, path, req.httpMethod) {
      return Reject(InsufficientPermissions);
    }
    out := Next(requestHeaders.entries);
  }

  // Properties of the decision

  /** Key `k` is absent from both maps or bound to the same value in both. */
  predicate SameEntry(a: map<string, string>, b: map<string, string>, k: string) {
    (k in a <==> k in b) && (k in a ==> a[k] == b[k])
  }

  /** A public route is let through with a bare `next()`, whatever the token and whatever the oracle would say. */
  lemma PublicRouteBypass(req: Request, verify: string -> Option<Payload>)
    requires req.path in PUBLIC_ROUTES
    ensures Decide(req, verify) == Bypass
  {
  }

  /** A whitespace-only token is as good as none: 401 on every non-public path. */
  lemma BlankTokenRejected(req: Request, verify: string -> Option<Payload>)
    requires req.path !in PUBLIC_ROUTES
    requires req.authCookie.Some? && Blank(req.authCookie.value)
    ensures Decide(req, verify) == Reject(AuthRequired)
    ensures Decide(req, verify).Status() == 401
  {
    TrimEmptyIffBlank(req.authCookie.value);
  }

  /**
   * On a non-public path the answer is 401 exactly when the token is missing
   * or blank, or the oracle's claim is unusable (null, a falsy id such as 0,
   * no role, or a role outside `UserRole`); such a request never passes.
   */
  lemma UnauthorizedIff(req: Request, verify: string -> Option<Payload>)
    requires req.path !in PUBLIC_ROUTES
    ensures var out := Decide(req, verify);
      (out.Reject? && out.Status() == 401) <==>
        (TokenMissing(req.authCookie) || !ClaimAccepted(verify(req.authCookie.value)))
  {
  }

  /**
   * On `/api/users/...` a caller who is not the administrator and names
   * neither `me` nor their own id gets 403 before the permission table is
   * consulted, whatever the table would say.
   */
  lemma SelfAccessDenied(req: Request, verify: string -> Option<Payload>)
    requires req.path !in PUBLIC_ROUTES && !TokenMissing(req.authCookie)
    requires ClaimAccepted(verify(req.authCookie.value))
    requires StartsWith(req.path, USERS_PREFIX)
    requires var user := verify(req.authCookie.value).value;
      user.role.value != ADMIN &&
      LastSegment(req.path) != "me" && LastSegment(req.path) != IntToString(user.id.value)
    ensures Decide(req, verify) == Reject(ForbiddenOwnData)
  {
  }

  /**
   * A request is bypassed exactly when its route is public.  Otherwise it
   * passes exactly when it carries a token whose claim is accepted, it passes
   * the self-access rule where that applies, and the permission table admits
   * (role, path, method).
   */
  lemma PassThroughIff(req: Request, verify: string -> Option<Payload>)
    ensures Decide(req, verify).Bypass? <==> req.path in PUBLIC_ROUTES
    ensures Decide(req, verify).Next? <==>
      req.path !in PUBLIC_ROUTES &&
      (!TokenMissing(req.authCookie) && ClaimAccepted(verify(req.authCookie.value)) &&
       var user := verify(req.authCookie.value).value;
       (StartsWith(req.path, USERS_PREFIX) ==> SelfAccess(LastSegment(req.path), user)) &&
       HasPermission(user.role.value, req.path, req.httpMethod))
  {
  }

  /**
   * The header map a non-public pass-through hands to `NextResponse.next`: the incoming headers
   * with `x-user-id` and `x-user-role` set from the claim, `x-user-library-id`
   * set only when `library` is truthy, `x-requested-user-id` set to the
   * caller's id only for the `me` alias; every other header is untouched.
   */
  lemma ForwardedHeaders(req: Request, verify: string -> Option<Payload>, h: map<string, string>)
    requires req.path !in PUBLIC_ROUTES
    requires Decide(req, verify) == Next(h)
    ensures !TokenMissing(req.authCookie) && ClaimAccepted(verify(req.authCookie.value))
    ensures var user := verify(req.authCookie.value).value;
      && USER_ID_HEADER in h && h[USER_ID_HEADER] == IntToString(user.id.value)
      && USER_ROLE_HEADER in h && h[USER_ROLE_HEADER] == user.role.value
      && (if Truthy(user.library)
          then USER_LIBRARY_HEADER in h && h[USER_LIBRARY_HEADER] == IntToString(user.library.value)
          else SameEntry(h, req.headers, USER_LIBRARY_HEADER))
      && (if StartsWith(req.path, USERS_PREFIX) && LastSegment(req.path) == "me"
          then REQUESTED_USER_HEADER in h && h[REQUESTED_USER_HEADER] == IntToString(user.id.value)
          else SameEntry(h, req.headers, REQUESTED_USER_HEADER))
    ensures forall k :: k !in {USER_ID_HEADER, USER_ROLE_HEADER, USER_LIBRARY_HEADER, REQUESTED_USER_HEADER} ==>
      SameEntry(h, req.headers, k)
  {
    PassedHeaders(req, verify, h);
    var user := verify(req.authCookie.value).value;
    var h0 := EnrichedHeaders(req.headers, user);
    EnrichedHeadersShape(req.headers, user);
    HeaderNamesDistinct();
    if StartsWith(req.path, USERS_PREFIX) && LastSegment(req.path) == "me" {
      assert h == h0[REQUESTED_USER_HEADER := IntToString(user.id.value)];
      forall k | k !in {USER_ID_HEADER, USER_ROLE_HEADER, USER_LIBRARY_HEADER, REQUESTED_USER_HEADER}
        ensures SameEntry(h, req.headers, k)
      {
        assert SameEntry(h0, req.headers, k);
      }
    } else {
      assert h == h0;
    }
  }

  /** A non-public pass-through hands on the enriched headers, plus the requested id for `me`. */
  lemma PassedHeaders(req: Request, verify: string -> Option<Payload>, h: map<string, string>)
    requires req.path !in PUBLIC_ROUTES
    requires Decide(req, verify) == Next(h)
    ensures !TokenMissing(req.authCookie) && ClaimAccepted(verify(req.authCookie.value))
    ensures var user := verify(req.authCookie.value).value;
      var h0 := EnrichedHeaders(req.headers, user);
      h == if StartsWith(req.path, USERS_PREFIX) && LastSegment(req.path) == "me"
           then h0[REQUESTED_USER_HEADER := IntToString(user.id.value)] else h0
  {
  }

  /** What enrichment sets and what it leaves alone. */
  lemma EnrichedHeadersShape(incoming: map<string, string>, user: Payload)
    requires user.id.Some? && user.role.Some?
    ensures var h := EnrichedHeaders(incoming, user);
      && USER_ID_HEADER in h && h[USER_ID_HEADER] == IntToString(user.id.value)
      && USER_ROLE_HEADER in h && h[USER_ROLE_HEADER] == user.role.value
      && (if Truthy(user.library)
          then USER_LIBRARY_HEADER in h && h[USER_LIBRARY_HEADER] == IntToString(user.library.value)
          else SameEntry(h, incoming, USER_LIBRARY_HEADER))
      && SameEntry(h, incoming, REQUESTED_USER_HEADER)
      && forall k :: k !in {USER_ID_HEADER, USER_ROLE_HEADER, USER_LIBRARY_HEADER} ==> SameEntry(h, incoming, k)
  {
    HeaderNamesDistinct();
  }

  lemma HeaderNamesDistinct()
    ensures USER_ID_HEADER != USER_ROLE_HEADER && USER_ID_HEADER != USER_LIBRARY_HEADER
    ensures USER_ROLE_HEADER != USER_LIBRARY_HEADER
    ensures REQUESTED_USER_HEADER !in {USER_ID_HEADER, USER_ROLE_HEADER, USER_LIBRARY_HEADER}
  {
    assert USER_ID_HEADER[7] == 'i' && USER_ROLE_HEADER[7] == 'r' && USER_LIBRARY_HEADER[7] == 'l';
    assert REQUESTED_USER_HEADER[2] == 'r' && USER_ID_HEADER[2] == 'u';
  }

  /**
   * With the real `verifyToken`, which fills `libraryId` and never `library`,
   * the gate never sets `x-user-library-id`: a passed request carries that
   * header exactly as the client sent it, if at all.
   */
  lemma RealTokenNeverSetsLibraryHeader(req: Request, jwtVerify: string -> Option<JwtClaims>, h: map<string, string>)
    requires Decide(req, VerifyTokenOracle(jwtVerify)) == Next(h)
    ensures SameEntry(h, req.headers, USER_LIBRARY_HEADER)
  {
    if req.path !in PUBLIC_ROUTES {
      ForwardedHeaders(req, VerifyTokenOracle(jwtVerify), h);
    }
  }

  /**
   * No request for `/api/users/<seg>` passes unless the segment is `me` or
   * the literal `[id]`: a caller naming their own numeric id clears the
   * self-access rule and is then refused by the table.
   */
  lemma UserRecordNeverPasses(req: Request, verify: string -> Option<Payload>, seg: string)
    requires req.path == USERS_PREFIX + seg && seg != "me" && seg != "[id]"
    ensures Decide(req, verify).Reject?
  {
    assert req.path[5] == 'u';
    if Decide(req, verify).Next? {
      PassThroughIff(req, verify);
      UserRecordPathDenied(verify(req.authCookie.value).value.role.value, seg, req.httpMethod);
    }
  }

  /**
   * No request below `/api/libraries/<seg>` passes unless the segment is the
   * literal `[library]`: the gate has no rule that admits a manager to the
   * library of its claim, or anyone to any concrete library.
   */
  lemma LibraryRecordNeverPasses(req: Request, verify: string -> Option<Payload>, seg: string, rest: string)
    requires req.path == "/api/libraries/" + seg + rest
    requires '/' !in seg && seg != "[library]"
    requires rest == "" || rest[0] == '/'
    ensures Decide(req, verify).Reject?
  {
    assert req.path[5] == 'l';
    if Decide(req, verify).Next? {
      PassThroughIff(req, verify);
      LibraryRecordPathDenied(verify(req.authCookie.value).value.role.value, seg, rest, req.httpMethod);
    }
  }

  // Concrete requests

  /** Every role may read `/api/users/me`. */
  lemma EveryRoleMayReadMe(role: string)
    requires role in VALID_ROLES
    ensures HasPermission(role, "/api/users/me", "GET")
  {
    var rule := Rule("/api/users/me", if role == MANAGER || role == DELIVERY then Some(["GET"]) else Some(["GET", "PATCH"]));
    assert rule in PERMISSIONS[role];
  }

  /**
   * On a users path whose last segment is the alias `me`, any accepted
   * caller clears the self-access rule; the request then passes exactly when
   * the table admits it (for `/api/users/me` itself every role may GET, see
   * `EveryRoleMayReadMe`), and `x-requested-user-id` in the header map it
   * hands on is the caller's own id.
   */
  lemma MeAliasResolvesToCaller(req: Request, verify: string -> Option<Payload>)
    requires StartsWith(req.path, USERS_PREFIX) && LastSegment(req.path) == "me"
    requires !TokenMissing(req.authCookie) && ClaimAccepted(verify(req.authCookie.value))
    ensures var user := verify(req.authCookie.value).value;
      Decide(req, verify).Next? <==> HasPermission(user.role.value, req.path, req.httpMethod)
    ensures var user := verify(req.authCookie.value).value;
      Decide(req, verify).Next? ==>
        REQUESTED_USER_HEADER in Decide(req, verify).headers &&
        Decide(req, verify).headers[REQUESTED_USER_HEADER] == IntToString(user.id.value)
  {
    UsersPathNotPublic(req.path);
    PassThroughIff(req, verify);
    if Decide(req, verify).Next? {
      PassedHeaders(req, verify, Decide(req, verify).headers);
    }
  }

  /**
   * A caller other than the administrator asking for the record of another
   * numeric id is refused by the self-access rule (a client with id 42
   * asking for `/api/users/43`, say).
   */
  lemma OtherUserRecordRefused(req: Request, verify: string -> Option<Payload>, other: int)
    requires req.path == USERS_PREFIX + IntToString(other)
    requires !TokenMissing(req.authCookie) && ClaimAccepted(verify(req.authCookie.value))
    requires var user := verify(req.authCookie.value).value;
      user.role.value != ADMIN && user.id.value != other
    ensures Decide(req, verify) == Reject(ForbiddenOwnData)
  {
    var user := verify(req.authCookie.value).value;
    IntToStringShape(other);
    IntToStringInjective(other, user.id.value);
    UsersRecordPath(IntToString(other));
    SelfAccessDenied(req, verify);
  }

  /** No users path is a public route. */
  lemma UsersPathNotPublic(p: string)
    requires StartsWith(p, USERS_PREFIX)
    ensures p !in PUBLIC_ROUTES
  {
    assert p[5] == p[..11][5] == 'u';
  }

  /** `/api/users/<seg>` is a non-public users path whose last segment is `seg`. */
  lemma UsersRecordPath(seg: string)
    requires '/' !in seg
    ensures var p := USERS_PREFIX + seg;
      p !in PUBLIC_ROUTES && StartsWith(p, USERS_PREFIX) && LastSegment(p) == seg
  {
    var p := USERS_PREFIX + seg;
    assert p !in PUBLIC_ROUTES by { assert p[5] == 'u'; }
    assert StartsWith(p, USERS_PREFIX) by { assert p[..11] == USERS_PREFIX; }
    LastSegmentOfAppend(USERS_PREFIX, seg);
  }

  /**
   * Beyond the public routes, a delivery agent gets through only to the sales list and
   * sale updates, its own record and the public page; listing books, for one, is refused.
   */
  lemma DeliveryConfined(req: Request, verify: string -> Option<Payload>)
    requires req.path !in PUBLIC_ROUTES && req.authCookie.Some?
    requires verify(req.authCookie.value).Some? && verify(req.authCookie.value).value.role == Some(DELIVERY)
    ensures Decide(req, verify).Next? ==>
      (req.path == "/api/sales" && req.httpMethod in ["GET", "PATCH"]) ||
      (req.path == "/api/users/me" && req.httpMethod == "GET") ||
      (req.path == "/api/public" && req.httpMethod == "GET")
  {
    if Decide(req, verify).Next? {
      var user := verify(req.authCookie.value).value;
      assert ValidateUser(verify(req.authCookie.value)) == Success(user);
      assert HasPermission(DELIVERY, req.path, req.httpMethod);
      DeliveryPermissions(req.path, req.httpMethod);
    }
  }
}
