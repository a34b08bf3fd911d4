/** The tenant controller: provisioning a tenant together with its first
    admin, reading a tenant, and updating its branding, with the two request
    schemas. */
module TenantController {
  import opened Common
  import opened Jwt
  import opened Persistence
  import opened Http
  import opened ErrorHandler
  import opened Validation
  import opened Collaborators
  import opened AuthController

  // ---- Schemas ----

  /** A character of `/^[a-z0-9-]+$/`. */
  predicate SubdomainChar(c: char)
  {
    ('a' <= c <= 'z') || ('0' <= c <= '9') || c == '-'
  }

  /** `/^[a-z0-9-]+$/`: non-empty, lower-case letters, digits and hyphens. */
  predicate SubdomainPattern(s: string)
  {
    |s| >= 1 && forall i :: 0 <= i < |s| ==> SubdomainChar(s[i])
  }

  predicate HexDigit(c: char)
  {
    ('0' <= c <= '9') || ('a' <= c <= 'f') || ('A' <= c <= 'F')
  }

  /** `/^#[0-9A-Fa-f]{6}$/`. */
  predicate ColorPattern(s: string)
  {
    |s| == 7 && s[0] == '#' && forall i :: 1 <= i < 7 ==> HexDigit(s[i])
  }

  /** The accent colour a tenant gets when provisioning names none. */
  const DefaultAccent := "#C0B8A7"

  lemma DefaultAccentMatches()
    ensures ColorPattern(DefaultAccent)
  {
  }

  const ThemeOptions := "'light' | 'dark' | 'auto'"

  /** A provisioning request body; a field is `None` when the JSON lacks it. */
  datatype CreateTenantBody = CreateTenantBody(
    name: Option<string>, subdomain: Option<string>, accentColor: Option<string>,
    adminEmail: Option<string>, adminPassword: Option<string>, adminName: Option<string>)

  datatype CreateTenantInput = CreateTenantInput(
    name: string, subdomain: string, accentColor: Option<string>,
    adminEmail: string, adminPassword: string, adminName: string)

  /** What the provisioning schema accepts: a name of 1 to 255 characters, a
      subdomain of 3 to 100 characters from `[a-z0-9-]`, an optional
      `#rrggbb` colour, an admin email, an admin password of at least 8
      characters and a non-empty admin name. */
  predicate CreateAccepts(b: CreateTenantBody, f: Formats)
  {
    && b.name.Some? && 1 <= JsLength(b.name.value) <= 255
    && b.subdomain.Some? && 3 <= JsLength(b.subdomain.value) <= 100 && SubdomainPattern(b.subdomain.value)
    && (b.accentColor.None? || ColorPattern(b.accentColor.value))
    && b.adminEmail.Some? && f.isEmail(b.adminEmail.value)
    && b.adminPassword.Some? && JsLength(b.adminPassword.value) >= 8
    && b.adminName.Some? && JsLength(b.adminName.value) >= 1
  }

  /** The issues zod reports for a provisioning body, every failed check of
      every field in the schema's order; none exactly when it is accepted. */
  function CreateIssues(b: CreateTenantBody, f: Formats): (r: seq<Issue>)
    ensures r == [] <==> CreateAccepts(b, f)
  {
    var name := RequiredField("name", b.name, s => MinLength(s, 1) + MaxLength(s, 255));
    var subdomain := RequiredField("subdomain", b.subdomain,
                                   s => MinLength(s, 3) + MaxLength(s, 100) + Check(SubdomainPattern(s), InvalidPattern));
    var accentColor := OptionalField("accentColor", b.accentColor, s => Check(ColorPattern(s), InvalidPattern));
    var adminEmail := RequiredField("adminEmail", b.adminEmail, s => Check(f.isEmail(s), InvalidEmail));
    var adminPassword := RequiredField("adminPassword", b.adminPassword, s => MinLength(s, 8));
    var adminName := RequiredField("adminName", b.adminName, s => MinLength(s, 1));
    assert name == [] <==> b.name.Some? && 1 <= JsLength(b.name.value) <= 255;
    assert subdomain == [] <==>
      b.subdomain.Some? && 3 <= JsLength(b.subdomain.value) <= 100 && SubdomainPattern(b.subdomain.value);
    assert accentColor == [] <==> b.accentColor.None? || ColorPattern(b.accentColor.value);
    assert adminEmail == [] <==> b.adminEmail.Some? && f.isEmail(b.adminEmail.value);
    assert adminPassword == [] <==> b.adminPassword.Some? && JsLength(b.adminPassword.value) >= 8;
    assert adminName == [] <==> b.adminName.Some? && JsLength(b.adminName.value) >= 1;
    assert |name + subdomain + accentColor + adminEmail + adminPassword + adminName|
        == |name| + |subdomain| + |accentColor| + |adminEmail| + |adminPassword| + |adminName|;
    name + subdomain + accentColor + adminEmail + adminPassword + adminName
  }

  /** `createTenantSchema.parse`. */
  function ParseCreate(b: CreateTenantBody, f: Formats): (r: Result<CreateTenantInput, seq<Issue>>)
    ensures r.Success? <==> CreateAccepts(b, f)
    ensures r.Failure? ==> r.error == CreateIssues(b, f) && |r.error| > 0
    ensures r.Success? ==> r.value == CreateTenantInput(b.name.value, b.subdomain.value, b.accentColor,
                                                        b.adminEmail.value, b.adminPassword.value, b.adminName.value)
  {
    if CreateAccepts(b, f) then
      Success(CreateTenantInput(b.name.value, b.subdomain.value, b.accentColor,
                                b.adminEmail.value, b.adminPassword.value, b.adminName.value))
    else Failure(CreateIssues(b, f))
  }

  /** A branding update body; a field is `None` when the JSON lacks it. */
  datatype UpdateTenantBody = UpdateTenantBody(
    name: Option<string>, logoUrl: Option<string>, accentColor: Option<string>,
    theme: Option<string>, customDomain: Option<string>)

  /** What the update schema accepts: every field is optional; a name has 1 to
      255 characters, a logo is a URL, a colour is `#rrggbb`, a theme is one
      of the three theme names, and a custom domain is any string. */
  predicate UpdateAccepts(b: UpdateTenantBody, f: Formats)
  {
    && (b.name.None? || 1 <= JsLength(b.name.value) <= 255)
    && (b.logoUrl.None? || f.isUrl(b.logoUrl.value))
    && (b.accentColor.None? || ColorPattern(b.accentColor.value))
    && (b.theme.None? || ParseTheme(b.theme.value).Some?)
  }

  /** The issues zod reports for an update body; none exactly when accepted. */
  function UpdateIssues(b: UpdateTenantBody, f: Formats): (r: seq<Issue>)
    ensures r == [] <==> UpdateAccepts(b, f)
  {
    var name := OptionalField("name", b.name, s => MinLength(s, 1) + MaxLength(s, 255));
    var logoUrl := OptionalField("logoUrl", b.logoUrl, s => Check(f.isUrl(s), InvalidUrl));
    var accentColor := OptionalField("accentColor", b.accentColor, s => Check(ColorPattern(s), InvalidPattern));
    var theme := OptionalField("theme", b.theme, s => Check(ParseTheme(s).Some?, InvalidEnum(ThemeOptions, s)));
    assert name == [] <==> b.name.None? || 1 <= JsLength(b.name.value) <= 255;
    assert logoUrl == [] <==> b.logoUrl.None? || f.isUrl(b.logoUrl.value);
    assert accentColor == [] <==> b.accentColor.None? || ColorPattern(b.accentColor.value);
    assert theme == [] <==> b.theme.None? || ParseTheme(b.theme.value).Some?;
    assert |name + logoUrl + accentColor + theme| == |name| + |logoUrl| + |accentColor| + |theme|;
    name + logoUrl + accentColor + theme
  }

  /** `updateTenantSchema.parse`: the fields of the body become the fields of
      the update, the theme name becomes the theme. */
  function ParseUpdate(b: UpdateTenantBody, f: Formats): (r: Result<TenantUpdate, seq<Issue>>)
    ensures r.Success? <==> UpdateAccepts(b, f)
    ensures r.Failure? ==> r.error == UpdateIssues(b, f) && |r.error| > 0
    ensures r.Success? ==> && r.value.name == b.name && r.value.logoUrl == b.logoUrl
                           && r.value.accentColor == b.accentColor && r.value.customDomain == b.customDomain
                           && (r.value.theme.Some? <==> b.theme.Some?)
                           && (r.value.theme.Some? ==> ThemeName(r.value.theme.value) == b.theme.value)
  {
    if UpdateAccepts(b, f) then
      var theme := if b.theme.Some? then ParseTheme(b.theme.value) else None;
      Success(TenantUpdate(b.name, b.logoUrl, b.accentColor, theme, b.customDomain))
    else Failure(UpdateIssues(b, f))
  }

  // ---- Create ----

  /** `validated.accentColor || '#C0B8A7'`: a given, non-empty colour wins. */
  function AccentOf(given: Option<string>): (c: string)
    ensures given.Some? && given.value != "" ==> c == given.value
    ensures given.None? ==> c == DefaultAccent
  {
    if given.Some? && given.value != "" then given.value else DefaultAccent
  }

  /** A colour the schema accepted is never replaced by the default. */
  lemma AcceptedAccentIsKept(b: CreateTenantBody, f: Formats)
    requires CreateAccepts(b, f) && b.accentColor.Some?
    ensures AccentOf(ParseCreate(b, f).value.accentColor) == b.accentColor.value
  {
    assert |b.accentColor.value| == 7;
  }

  /** The tenant a provisioning inserts: the database fills in theme, plan and
      activity flag. */
  function NewTenant(store: Store, v: CreateTenantInput, tenantId: string): Tenant
    reads store
  {
    Tenant(tenantId, v.name, v.subdomain, None, AccentOf(v.accentColor), store.defaults.theme,
           store.defaults.plan, None, store.defaults.tenantActive)
  }

  /** The first user of a provisioned tenant: an admin of that tenant. */
  function NewAdmin(store: Store, svc: Services, v: CreateTenantInput, tenantId: string, userId: string): User
    reads store
  {
    User(userId, tenantId, v.adminEmail, v.adminName, svc.hasher.hash(v.adminPassword), Admin,
         store.defaults.userActive, None)
  }

  /** `createTenant`: a taken subdomain is a 400; otherwise the tenant and its
      admin are inserted together (a failed insert leaves the store as it was
      and is a 500), and the admin gets a session in the new tenant. */
  method CreateTenant(store: Store, svc: Services, body: CreateTenantBody, tenantId: string, userId: string, now: int)
    returns (r: Result<Response, Error>)
    requires store.Valid()
    modifies store`tenants, store`subdomains, store`users
    ensures store.Valid()
    ensures ParseCreate(body, svc.formats).Failure? ==>
              r == Failure(ValidationError(ParseCreate(body, svc.formats).error))
    ensures ParseCreate(body, svc.formats).Success? ==>
              var v := ParseCreate(body, svc.formats).value;
              && (v.subdomain in old(store.subdomains) ==> r == Failure(AppError(400, "Subdomain already taken")))
              && (v.subdomain !in old(store.subdomains) ==>
                    (r.Success? <==> tenantId !in old(store.tenants) && !old(store.UserIdTaken(userId))))
              && (v.subdomain !in old(store.subdomains) && r.Failure? ==>
                    r.error == AppError(500, "Failed to create tenant"))
    ensures r.Failure? ==> store.tenants == old(store.tenants) && store.subdomains == old(store.subdomains)
                           && store.users == old(store.users)
    ensures r.Success? ==>
              && ParseCreate(body, svc.formats).Success?
              && var v := ParseCreate(body, svc.formats).value;
              && var t := NewTenant(store, v, tenantId);
              && var admin := NewAdmin(store, svc, v, tenantId, userId);
              && store.tenants == old(store.tenants)[tenantId := t]
              && store.subdomains == old(store.subdomains)[v.subdomain := tenantId]
              && store.users == old(store.users)[KeyOf(admin) := admin]
              && r.value.status == 201 && r.value.body.ProvisionedBody?
              && r.value.body.tenant == CreatedTenantView(tenantId, t.name, t.subdomain, t.accentColor, t.plan)
              && r.value.body.admin == AdminView(userId, v.adminEmail, v.adminName, Admin)
              && IssuedPair(svc, r.value.body.token, r.value.body.refreshToken, PayloadOf(admin), now)
              && (Sound(svc.hasher) && store.defaults.userActive ==>
                    Authenticate(store.users, svc.hasher, LoginInput(v.adminEmail, v.adminPassword, tenantId)) == Some(admin))
  {
    var parsed := ParseCreate(body, svc.formats);
    if parsed.Failure? {
      return Failure(ValidationError(parsed.error));
    }
    var v := parsed.value;
    if store.TenantBySubdomain(v.subdomain).Some? {
      return Failure(AppError(400, "Subdomain already taken"));
    }
    var t := NewTenant(store, v, tenantId);
    var admin := NewAdmin(store, svc, v, tenantId, userId);
    assert tenantId !in store.tenants ==> KeyOf(admin) !in store.users;
    var created := store.CreateTenantWithAdmin(t, admin);
    if !created {
      return Failure(Rethrow(UnknownError("Unique constraint failed", ""), "Failed to create tenant"));
    }
    if Sound(svc.hasher) && store.defaults.userActive {
      RegisteredUserCanLogIn(store.users, svc.hasher, admin, v.adminPassword);
    }
    var access, refresh := IssueTokens(svc, admin, now);
    r := Success(Response(201, ProvisionedBody(CreatedTenantView(t.id, t.name, t.subdomain, t.accentColor, t.plan),
                                               AdminView(admin.id, admin.email, admin.name, admin.role),
                                               access, refresh)));
  }

  // ---- Read ----

  /** `getTenant`: every column of the tenant, active or not; a 404 only for
      an id no tenant has. */
  function GetTenant(store: Store, tenantId: string): (r: Result<Response, Error>)
    requires store.Valid()
    reads store
    ensures r.Failure? <==> tenantId !in store.tenants
    ensures r.Failure? ==> r.error == AppError(404, "Tenant not found")
    ensures r.Success? ==> r.value.status == 200 && r.value.body.TenantBody?
                           && r.value.body.record.id == tenantId && store.tenants[tenantId] == r.value.body.record
  {
    match store.TenantById(tenantId)
    case None => Failure(AppError(404, "Tenant not found"))
    case Some(t) => Success(Response(200, TenantBody(t)))
  }

  // ---- Update ----

  /** `updateTenant`: a rejected body changes nothing; an id no tenant has is a
      500 (the database's not-found error is caught as unexpected); otherwise
      exactly the given branding fields of that one tenant are written. */
  method UpdateTenant(store: Store, svc: Services, tenantId: string, body: UpdateTenantBody)
    returns (r: Result<Response, Error>)
    requires store.Valid()
    modifies store`tenants
    ensures store.Valid()
    ensures ParseUpdate(body, svc.formats).Failure? ==>
              r == Failure(ValidationError(ParseUpdate(body, svc.formats).error))
    ensures ParseUpdate(body, svc.formats).Success? && tenantId !in old(store.tenants) ==>
              r == Failure(AppError(500, "Failed to update tenant"))
    ensures r.Failure? ==> store.tenants == old(store.tenants)
    ensures r.Success? <==> ParseUpdate(body, svc.formats).Success? && tenantId in old(store.tenants)
    ensures r.Success? ==>
              var t := ApplyUpdate(old(store.tenants)[tenantId], ParseUpdate(body, svc.formats).value);
              && store.tenants == old(store.tenants)[tenantId := t]
              && r.value == Response(200, UpdatedTenantBody(UpdatedView(t)))
  {
    var parsed := ParseUpdate(body, svc.formats);
    if parsed.Failure? {
      return Failure(ValidationError(parsed.error));
    }
    var updated := store.UpdateTenant(tenantId, parsed.value);
    if updated.None? {
      return Failure(Rethrow(UnknownError("Record to update not found", ""), "Failed to update tenant"));
    }
    r := Success(Response(200, UpdatedTenantBody(UpdatedView(updated.value))));
  }

  /** An update never moves a tenant to another subdomain, changes its plan or
      (de)activates it, and never touches another tenant. */
  lemma UpdateTouchesOnlyBranding(before: map<string, Tenant>, tenantId: string, u: TenantUpdate, other: string)
    requires tenantId in before && other in before && other != tenantId
    ensures var after := before[tenantId := ApplyUpdate(before[tenantId], u)];
      && after[other] == before[other]
      && after[tenantId].subdomain == before[tenantId].subdomain
      && after[tenantId].plan == before[tenantId].plan
      && after[tenantId].isActive == before[tenantId].isActive
  {
  }
}
