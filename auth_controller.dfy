/** The identity operations of the auth controller: registration, login and
    access-token refresh, with their request schemas. */
module AuthController {
  import opened Common
  import opened Jwt
  import opened Persistence
  import opened Http
  import opened ErrorHandler
  import opened Validation
  import opened Collaborators

  // ---- Schemas ----

  /** A registration request body; a field is `None` when the JSON lacks it. */
  datatype RegisterBody = RegisterBody(
    tenantId: Option<string>, email: Option<string>, password: Option<string>,
    name: Option<string>, role: Option<string>)

  datatype RegisterInput = RegisterInput(tenantId: string, email: string, password: string, name: string, role: Role)

  const RoleOptions := "'admin' | 'staff' | 'customer'"

  /** What the registration schema accepts: a uuid tenant id, an email, a
      password of at least 8 characters, a non-empty name and, if given, one
      of the three role names. */
  predicate RegisterAccepts(b: RegisterBody, f: Formats)
  {
    && b.tenantId.Some? && f.isUuid(b.tenantId.value)
    && b.email.Some? && f.isEmail(b.email.value)
    && b.password.Some? && JsLength(b.password.value) >= 8
    && b.name.Some? && JsLength(b.name.value) >= 1
    && (b.role.None? || ParseRole(b.role.value).Some?)
  }

  /** The issues zod reports for a registration body, field by field in the
      schema's order; there are none exactly when the schema accepts it. */
  function RegisterIssues(b: RegisterBody, f: Formats): (r: seq<Issue>)
    ensures r == [] <==> RegisterAccepts(b, f)
  {
    var tenantId := RequiredField("tenantId", b.tenantId, s => Check(f.isUuid(s), InvalidUuid));
    var email := RequiredField("email", b.email, s => Check(f.isEmail(s), InvalidEmail));
    var password := RequiredField("password", b.password, s => MinLength(s, 8));
    var name := RequiredField("name", b.name, s => MinLength(s, 1));
    var role := OptionalField("role", b.role, s => Check(ParseRole(s).Some?, InvalidEnum(RoleOptions, s)));
    assert tenantId == [] <==> b.tenantId.Some? && f.isUuid(b.tenantId.value);
    assert email == [] <==> b.email.Some? && f.isEmail(b.email.value);
    assert password == [] <==> b.password.Some? && JsLength(b.password.value) >= 8;
    assert name == [] <==> b.name.Some? && JsLength(b.name.value) >= 1;
    assert role == [] <==> b.role.None? || ParseRole(b.role.value).Some?;
    assert |tenantId + email + password + name + role| == |tenantId| + |email| + |password| + |name| + |role|;
    tenantId + email + password + name + role
  }

  /** `registerSchema.parse`: the role defaults to staff. */
  function ParseRegister(b: RegisterBody, f: Formats): (r: Result<RegisterInput, seq<Issue>>)
    ensures r.Success? <==> RegisterAccepts(b, f)
    ensures r.Failure? ==> r.error == RegisterIssues(b, f) && |r.error| > 0
    ensures r.Success? ==> && r.value.tenantId == b.tenantId.value && r.value.email == b.email.value
                           && r.value.password == b.password.value && r.value.name == b.name.value
    ensures r.Success? && b.role.None? ==> r.value.role == Staff
    ensures r.Success? && b.role.Some? ==> RoleName(r.value.role) == b.role.value
  {
    if RegisterAccepts(b, f) then
      var role := if b.role.Some? then ParseRole(b.role.value).value else Staff;
      Success(RegisterInput(b.tenantId.value, b.email.value, b.password.value, b.name.value, role))
    else Failure(RegisterIssues(b, f))
  }

  datatype LoginBody = LoginBody(email: Option<string>, password: Option<string>, tenantId: Option<string>)

  datatype LoginInput = LoginInput(email: string, password: string, tenantId: string)

  /** What the login schema accepts: an email, any password string and a
      uuid tenant id. */
  predicate LoginAccepts(b: LoginBody, f: Formats)
  {
    b.email.Some? && f.isEmail(b.email.value) && b.password.Some? && b.tenantId.Some? && f.isUuid(b.tenantId.value)
  }

  /** The issues zod reports for a login body; none exactly when accepted. */
  function LoginIssues(b: LoginBody, f: Formats): (r: seq<Issue>)
    ensures r == [] <==> LoginAccepts(b, f)
  {
    var email := RequiredField("email", b.email, s => Check(f.isEmail(s), InvalidEmail));
    var password := RequiredField("password", b.password, s => []);
    var tenantId := RequiredField("tenantId", b.tenantId, s => Check(f.isUuid(s), InvalidUuid));
    assert email == [] <==> b.email.Some? && f.isEmail(b.email.value);
    assert password == [] <==> b.password.Some?;
    assert tenantId == [] <==> b.tenantId.Some? && f.isUuid(b.tenantId.value);
    assert |email + password + tenantId| == |email| + |password| + |tenantId|;
    email + password + tenantId
  }

  /** `loginSchema.parse`. */
  function ParseLogin(b: LoginBody, f: Formats): (r: Result<LoginInput, seq<Issue>>)
    ensures r.Success? <==> LoginAccepts(b, f)
    ensures r.Failure? ==> r.error == LoginIssues(b, f) && |r.error| > 0
    ensures r.Success? ==> r.value == LoginInput(b.email.value, b.password.value, b.tenantId.value)
  {
    if LoginAccepts(b, f) then Success(LoginInput(b.email.value, b.password.value, b.tenantId.value))
    else Failure(LoginIssues(b, f))
  }

  datatype RefreshBody = RefreshBody(refreshToken: Option<string>)

  /** `refreshSchema.parse`: any string. */
  function ParseRefresh(b: RefreshBody): (r: Result<string, seq<Issue>>)
    ensures r.Success? <==> b.refreshToken.Some?
    ensures r.Success? ==> r.value == b.refreshToken.value
    ensures r.Failure? ==> r.error == [Issue(["refreshToken"], RequiredMessage)]
  {
    var issues := RequiredField("refreshToken", b.refreshToken, s => []);
    if issues == [] then Success(b.refreshToken.value) else Failure(issues)
  }

  // ---- Tokens ----

  /** The token payload of a user: the id, tenant, email and role the
      session response shows for it. */
  function PayloadOf(u: User): (p: Payload)
    ensures p.sub == AccountOf(u).id && p.tenantId == AccountOf(u).tenantId
    ensures p.email == AccountOf(u).email && p.role == AccountOf(u).role
  {
    Payload(u.id, u.tenantId, u.email, u.role)
  }

  /** `access` is an access token and `refresh` a refresh token, both for
      payload `p` and issued at `now`. */
  ghost predicate IssuedPair(svc: Services, access: string, refresh: string, p: Payload, now: int)
  {
    Lossless(svc.codec) ==>
      && svc.codec.decode(access) == Some(Token(Claims(p, now, now + svc.jwt.expiresIn), svc.jwt.secret))
      && svc.codec.decode(refresh) == Some(Token(Claims(p, now, now + svc.jwt.refreshExpiresIn), svc.jwt.refreshSecret))
  }

  /** The access and refresh tokens of a session for `u`. */
  method IssueTokens(svc: Services, u: User, now: int) returns (access: string, refresh: string)
    ensures IssuedPair(svc, access, refresh, PayloadOf(u), now)
  {
    access := GenerateToken(svc.jwt, svc.codec, Fresh(PayloadOf(u)), now).value;
    refresh := GenerateRefreshToken(svc.jwt, svc.codec, Fresh(PayloadOf(u)), now).value;
  }

  /** Lifetime the session responses announce, in seconds. */
  const AnnouncedExpiry := 3600

  /** The user record a session response shows. */
  function AccountOf(u: User): AccountView
  {
    AccountView(u.id, u.email, u.name, u.role, u.tenantId)
  }

  // ---- Register ----

  /** The user a successful registration stores. */
  function Registered(store: Store, svc: Services, v: RegisterInput, userId: string): User
    reads store
  {
    User(userId, v.tenantId, v.email, v.name, svc.hasher.hash(v.password), v.role, store.defaults.userActive, None)
  }

  /** `register`: the (tenant, email) pair must be new (checked before the
      tenant, so a duplicate is a 400 even in an inactive tenant), the tenant
      must exist and be active; then exactly one user is added, with a hashed
      password, and a session for it is returned. Nothing is stored on any
      failure. */
  method Register(store: Store, svc: Services, body: RegisterBody, userId: string, now: int)
    returns (r: Result<Response, Error>)
    requires store.Valid()
    modifies store`users
    ensures store.Valid()
    ensures ParseRegister(body, svc.formats).Failure? ==>
              r == Failure(ValidationError(ParseRegister(body, svc.formats).error))
    ensures ParseRegister(body, svc.formats).Success? ==>
              var v := ParseRegister(body, svc.formats).value;
              var key := UserKey(v.tenantId, v.email);
              && (key in old(store.users) ==>
                    r == Failure(AppError(400, "User already exists with this email")))
              && (key !in old(store.users) && (v.tenantId !in store.tenants || !store.tenants[v.tenantId].isActive) ==>
                    r == Failure(AppError(404, "Tenant not found or inactive")))
              && (key !in old(store.users) && v.tenantId in store.tenants && store.tenants[v.tenantId].isActive
                  && old(store.UserIdTaken(userId)) ==>
                    r == Failure(AppError(500, "Registration failed")))
              && (r.Success? <==> key !in old(store.users) && v.tenantId in store.tenants
                                  && store.tenants[v.tenantId].isActive && !old(store.UserIdTaken(userId)))
    ensures r.Failure? ==> store.users == old(store.users)
    ensures r.Success? ==>
              && ParseRegister(body, svc.formats).Success?
              && var u := Registered(store, svc, ParseRegister(body, svc.formats).value, userId);
              && KeyOf(u) !in old(store.users)
              && store.users == old(store.users)[KeyOf(u) := u]
              && r.value.status == 201 && r.value.body.SessionBody?
              && r.value.body.user == AccountOf(u) && r.value.body.expiresIn == AnnouncedExpiry
              && IssuedPair(svc, r.value.body.token, r.value.body.refreshToken, PayloadOf(u), now)
  {
    var parsed := ParseRegister(body, svc.formats);
    if parsed.Failure? {
      return Failure(ValidationError(parsed.error));
    }
    var v := parsed.value;
    if store.UserByKey(UserKey(v.tenantId, v.email)).Some? {
      return Failure(AppError(400, "User already exists with this email"));
    }
    var tenant := store.TenantById(v.tenantId);
    if tenant.None? || !tenant.value.isActive {
      return Failure(AppError(404, "Tenant not found or inactive"));
    }
    var u := Registered(store, svc, v, userId);
    var created := store.CreateUser(u);
    if !created {
      return Failure(Rethrow(UnknownError("Unique constraint failed on the fields: (`id`)", ""), "Registration failed"));
    }
    var access, refresh := IssueTokens(svc, u, now);
    r := Success(Response(201, SessionBody(AccountOf(u), access, refresh, AnnouncedExpiry)));
  }

  // ---- Login ----

  /** The credential check of login: the stored user of the pair, provided it
      is active and the password matches its hash. */
  function Authenticate(users: map<UserKey, User>, hasher: Hasher, v: LoginInput): (r: Option<User>)
    ensures r.Some? <==> && UserKey(v.tenantId, v.email) in users
                         && users[UserKey(v.tenantId, v.email)].isActive
                         && hasher.compare(v.password, users[UserKey(v.tenantId, v.email)].hashedPassword)
    ensures r.Some? ==> r.value == users[UserKey(v.tenantId, v.email)]
  {
    var key := UserKey(v.tenantId, v.email);
    if key !in users || !users[key].isActive then None
    else if !hasher.compare(v.password, users[key].hashedPassword) then None
    else Some(users[key])
  }

  /** Whoever registered can log in with the same password while active. */
  lemma RegisteredUserCanLogIn(users: map<UserKey, User>, hasher: Hasher, u: User, password: string)
    requires Sound(hasher)
    requires KeyOf(u) in users && users[KeyOf(u)] == u
    requires u.isActive && u.hashedPassword == hasher.hash(password)
    ensures Authenticate(users, hasher, LoginInput(u.email, password, u.tenantId)) == Some(u)
  {
    assert hasher.compare(password, hasher.hash(password));
  }

  /** `login`: an unknown pair, an inactive user and a wrong password all give
      the same 401; only after the checks pass is `lastLogin` set, and no
      other field of any user changes. */
  method Login(store: Store, svc: Services, body: LoginBody, now: int) returns (r: Result<Response, Error>)
    requires store.Valid()
    modifies store`users
    ensures store.Valid()
    ensures ParseLogin(body, svc.formats).Failure? ==>
              r == Failure(ValidationError(ParseLogin(body, svc.formats).error))
    ensures ParseLogin(body, svc.formats).Success?
            && Authenticate(old(store.users), svc.hasher, ParseLogin(body, svc.formats).value).None? ==>
              r == Failure(AppError(401, "Invalid credentials"))
    ensures r.Failure? ==> store.users == old(store.users)
    ensures ParseLogin(body, svc.formats).Success?
            && Authenticate(old(store.users), svc.hasher, ParseLogin(body, svc.formats).value).Some? ==>
              var u := Authenticate(old(store.users), svc.hasher, ParseLogin(body, svc.formats).value).value;
              && store.users == old(store.users)[KeyOf(u) := u.(lastLogin := Some(now))]
              && r.Success? && r.value.status == 200 && r.value.body.SessionBody?
              && r.value.body.user == AccountOf(u) && r.value.body.expiresIn == AnnouncedExpiry
              && IssuedPair(svc, r.value.body.token, r.value.body.refreshToken, PayloadOf(u), now)
  {
    var parsed := ParseLogin(body, svc.formats);
    if parsed.Failure? {
      return Failure(ValidationError(parsed.error));
    }
    var found := Authenticate(store.users, svc.hasher, parsed.value);
    if found.None? {
      return Failure(AppError(401, "Invalid credentials"));
    }
    var u := found.value;
    store.TouchLastLogin(KeyOf(u), now);
    var access, refresh := IssueTokens(svc, u, now);
    r := Success(Response(200, SessionBody(AccountOf(u), access, refresh, AnnouncedExpiry)));
  }

  // ---- Refresh ----

  /** `refreshToken` as written: the object `verifyRefreshToken` returns still
      carries `exp`, and it is passed to `generateToken`, whose `expiresIn`
      option jsonwebtoken refuses next to an existing `exp`. The catch block
      turns that into the 401 of a bad token, so every well-formed request
      is refused, whatever token it carries. */
  function RefreshAsWritten(svc: Services, body: RefreshBody, now: int): (r: Result<Response, Error>)
    ensures ParseRefresh(body).Failure? ==> r == Failure(ValidationError(ParseRefresh(body).error))
    ensures ParseRefresh(body).Success? ==> r == Failure(AppError(401, InvalidRefreshToken))
  {
    match ParseRefresh(body)
    case Failure(issues) => Failure(ValidationError(issues))
    case Success(token) =>
      match VerifyRefreshToken(svc.jwt, svc.codec, token, now)
      case Failure(m) => Failure(RethrowAsUnauthorized(UnknownError(m, ""), InvalidRefreshToken))
      case Success(claims) =>
        match GenerateToken(svc.jwt, svc.codec, Reused(claims), now)
        case Failure(m) => Failure(RethrowAsUnauthorized(UnknownError(m, ""), InvalidRefreshToken))
        case Success(access) => Success(Response(200, RefreshedBody(access, AnnouncedExpiry)))
  }

  /** `refreshToken` with the evident intent: the verified payload, stripped of
      the registered claims, is signed anew as an access token. A token that
      does not verify as a refresh token is a 401. */
  function RefreshToken(svc: Services, body: RefreshBody, now: int): (r: Result<Response, Error>)
    ensures ParseRefresh(body).Failure? ==> r == Failure(ValidationError(ParseRefresh(body).error))
    ensures ParseRefresh(body).Success? ==>
              (r.Success? <==> VerifyRefreshToken(svc.jwt, svc.codec, ParseRefresh(body).value, now).Success?)
    ensures ParseRefresh(body).Success? && r.Failure? ==> r.error == AppError(401, InvalidRefreshToken)
    ensures r.Success? ==>
              && r.value.status == 200 && r.value.body.RefreshedBody? && r.value.body.expiresIn == AnnouncedExpiry
              && var p := VerifyRefreshToken(svc.jwt, svc.codec, ParseRefresh(body).value, now).value.payload;
              (Lossless(svc.codec) ==>
                 svc.codec.decode(r.value.body.token) == Some(Token(Claims(p, now, now + svc.jwt.expiresIn), svc.jwt.secret)))
  {
    match ParseRefresh(body)
    case Failure(issues) => Failure(ValidationError(issues))
    case Success(token) =>
      match VerifyRefreshToken(svc.jwt, svc.codec, token, now)
      case Failure(_) => Failure(AppError(401, InvalidRefreshToken))
      case Success(claims) =>
        Success(Response(200, RefreshedBody(GenerateToken(svc.jwt, svc.codec, Fresh(claims.payload), now).value, AnnouncedExpiry)))
  }

  /** A refresh token issued for `p`, presented before it expires, yields an
      access token that authenticates as the very same `p` until that access
      token expires. */
  lemma RefreshKeepsPrincipal(svc: Services, p: Payload, issued: int, now: int, later: int)
    requires Lossless(svc.codec)
    requires now <= later < now + svc.jwt.expiresIn
    ensures var body := RefreshBody(Some(GenerateRefreshToken(svc.jwt, svc.codec, Fresh(p), issued).value));
      now < issued + svc.jwt.refreshExpiresIn ==>
        && RefreshToken(svc, body, now).Success?
        && VerifyToken(svc.jwt, svc.codec, RefreshToken(svc, body, now).value.body.token, later)
             == Success(Claims(p, now, now + svc.jwt.expiresIn))
  {
    RefreshRoundTrip(svc.jwt, svc.codec, p, issued, now);
  }

  /** A refresh token presented once it has expired is a 401, whatever the
      access-token lifetime. */
  lemma ExpiredRefreshIsUnauthorized(svc: Services, p: Payload, issued: int, now: int)
    requires Lossless(svc.codec)
    requires now >= issued + svc.jwt.refreshExpiresIn
    ensures var body := RefreshBody(Some(GenerateRefreshToken(svc.jwt, svc.codec, Fresh(p), issued).value));
      RefreshToken(svc, body, now) == Failure(AppError(401, InvalidRefreshToken))
  {
    RefreshRoundTrip(svc.jwt, svc.codec, p, issued, now);
  }

  /** The discrepancy: a refresh token fresh from login, presented at once, is
      refused as written and accepted by the intended operation. */
  lemma RefreshAsWrittenRefusesValidToken(svc: Services, p: Payload, now: int)
    requires Lossless(svc.codec) && svc.jwt.refreshExpiresIn > 0
    ensures var body := RefreshBody(Some(GenerateRefreshToken(svc.jwt, svc.codec, Fresh(p), now).value));
      && RefreshAsWritten(svc, body, now) == Failure(AppError(401, InvalidRefreshToken))
      && RefreshToken(svc, body, now).Success?
  {
    RefreshRoundTrip(svc.jwt, svc.codec, p, now, now);
  }
}
