# Tenant isolation and authentication core of silvercraft-saas, in Dafny

This project models the part of the silvercraft-saas backend that keeps
tenants apart and identifies callers:

- the tenant middleware, which resolves the tenant a request addresses (from
  the `tenantId` path parameter or from the leftmost label of the host) and
  checks that the caller belongs to it;
- the authentication middleware, which turns an `Authorization: Bearer`
  header into a principal and guards routes by role;
- the token service, which issues and verifies access and refresh tokens;
- the auth controller (register, login, refresh) and the tenant controller
  (provision a tenant with its first admin, read it, update its branding),
  including their request schemas;
- the error handler, which turns what a handler throws into a response;
- the tenant router, which fixes which middleware run, in which order, in
  front of each tenant route.

The request is a class whose `user` and `tenant` fields the middleware set;
each middleware returns a `Step` that either hands the request on or halts
with a response. The database is a `Store` class holding maps: tenants by
id, a unique subdomain index, and users by the pair (tenant id, email). Its
invariant `Valid` (records under their own keys, an exact subdomain index,
every user in a stored tenant, unique user ids) is kept by every operation.
Tokens are abstract: a token is its claims and the secret it was signed
with, and a codec turns it into text and back. The password hasher and
zod's email, uuid and URL recognisers are given functions. The clock is a
parameter `now`, in seconds. The ids the database would generate are
parameters too, and a clash takes the failed-insert path.

The module layout follows the source files:

| module | file | source |
|---|---|---|
| `TenantMiddleware` | tenant_middleware.dfy | backend/src/middleware/tenant.ts |
| `AuthMiddleware` | auth_middleware.dfy | backend/src/middleware/auth.ts |
| `Jwt` | jwt.dfy | backend/src/utils/jwt.ts |
| `AuthController` | auth_controller.dfy | backend/src/controllers/auth.controller.ts |
| `TenantController` | tenant_controller.dfy | backend/src/controllers/tenant.controller.ts |
| `ErrorHandler` | error_handler.dfy | backend/src/middleware/errorHandler.ts |
| `TenantRoutes` | tenant_routes.dfy | backend/src/routes/tenant.routes.ts |
| `Persistence`, `Validation`, `Collaborators`, `Http`, `Strings`, `Common` | the rest | the database, zod, bcrypt, Express responses, and the JavaScript string operations the core uses |

The central results are these:

- `TenantRoutes.TenantScope` and `TenantRoutes.GetTenantRoute`: a tenant's
  record reaches a caller only when the caller's verified token names that
  tenant.
- `TenantRoutes.PatchTenantRoute`: a tenant changes only through one of its
  own admins, and only in its branding fields. Becoming such an admin is open
  to anyone: `/auth/register` is public and its body may ask for the role
  "admin" in any active tenant (backend/src/controllers/auth.controller.ts:15,
  backend/src/routes/auth.routes.ts:8). `TenantRoutes.SelfRegisteredAdminRebrands`
  shows the consequence: a registration followed by a `PATCH` with that
  session's token rewrites the tenant's branding.
- `TenantRoutes.SessionTokenAuthenticates`: a session token authenticates as
  exactly the user it was issued for, until it expires.
- The round-trip and separation lemmas of `Jwt`.

## Model

| member | source | states |
|---|---|---|
| Common.ParseRole | backend/src/controllers/auth.controller.ts:15 | the role enum accepts exactly "admin", "staff" and "customer", and names the role it returns |
| Common.ParseRoleName | backend/src/controllers/auth.controller.ts:15 | every role's name parses back to that role |
| Common.ParseTheme | backend/src/controllers/tenant.controller.ts:22 | the theme enum accepts exactly "light", "dark" and "auto" |
| Strings.Split | backend/src/middleware/tenant.ts:95 | `split('.')` yields at least one part, no part holds the separator, and joining the parts gives the input back |
| Strings.SplitJoin | backend/src/middleware/errorHandler.ts:28 | splitting a `join('.')` of separator-free segments gives the segments back |
| Strings.SplitHead | backend/src/middleware/tenant.ts:95 | the first part of a split is a prefix of the input that ends at the end or at the first separator |
| Persistence.ApplyUpdate | backend/src/controllers/tenant.controller.ts:151-153 | each field the update carries replaces the stored one; every other field, including id, subdomain, plan and isActive, is kept |
| Persistence.EmptyUpdateKeeps | backend/src/controllers/tenant.controller.ts:151-153 | an update with no fields leaves the record unchanged |
| Persistence.Store.TenantBySubdomain | backend/src/middleware/tenant.ts:99-107 | a lookup by the unique subdomain finds the one tenant with that subdomain, or reports that none has it |
| Persistence.Store.TenantById | backend/src/middleware/tenant.ts:23-31 | a lookup by id finds the stored tenant exactly when the id is known, and that tenant carries the id |
| Persistence.Store.UserByKey | backend/src/controllers/auth.controller.ts:33-40 | a lookup by (tenant id, email) finds the stored user exactly when the pair is known, and that user carries the pair |
| Persistence.Store.CreateUser | backend/src/controllers/auth.controller.ts:59-75 | an insert succeeds exactly when the tenant exists and both the (tenant, email) pair and the id are free; it adds exactly that user and keeps the invariant |
| Persistence.Store.TouchLastLogin | backend/src/controllers/auth.controller.ts:135-138 | only the `lastLogin` of that one user changes |
| Persistence.Store.UpdateTenant | backend/src/controllers/tenant.controller.ts:151-165 | an unknown id fails and changes nothing; otherwise exactly that tenant is replaced by the updated record |
| Persistence.Store.CreateTenantWithAdmin | backend/src/controllers/tenant.controller.ts:43-65 | the tenant, its subdomain entry and its admin are inserted together, or nothing is inserted |
| ErrorHandler.HandleError | backend/src/middleware/errorHandler.ts:16-57 | a validation error is 400 "Validation failed" with one detail per issue whose path is the segments joined by '.'; an AppError keeps its status and message; anything else is 500 "Internal server error" |
| ErrorHandler.UnknownErrorsLookAlike | backend/src/middleware/errorHandler.ts:48-56 | the response to an unexpected error depends on neither its message nor its stack |
| ErrorHandler.DetailPathRecoversSegments | backend/src/middleware/errorHandler.ts:27-30 | a detail's path determines the issue's path segments when no segment contains '.' |
| ErrorHandler.NotFoundHandler | backend/src/middleware/errorHandler.ts:59-64 | an unmatched route is 404 "Route not found" with the request path |
| ErrorHandler.Rethrow | backend/src/controllers/auth.controller.ts:100-106 | the catch blocks of register, login (169-175), createTenant and updateTenant pass validation errors and AppErrors on unchanged and turn anything else into an operational AppError(500) with the handler's message; getTenant's catch passes on only AppErrors, which is the same there since nothing in its `try` raises a validation error |
| ErrorHandler.RethrownUnknownIsFixed500 | backend/src/controllers/tenant.controller.ts:173-179 | an unexpected error inside register, login, createTenant or updateTenant reaches the client as a 500 with that handler's fixed message |
| ErrorHandler.RethrowAsUnauthorized | backend/src/controllers/auth.controller.ts:192-198 | refreshToken's catch is different: only a validation error passes on, and every other error, an AppError included, reaches the client as 401 with the handler's message (see `AuthController.RefreshAsWritten`) |
| Jwt.Sign | backend/src/utils/jwt.ts:11-15 | signing succeeds exactly when the object has no `exp` yet; the token then decodes to the payload with `iat = now`, `exp = now + ttl` and the given key |
| Jwt.GenerateToken | backend/src/utils/jwt.ts:11-15 | an access token is issued for any fresh payload and decodes to it with the access secret and a lifetime of `expiresIn` |
| Jwt.GenerateRefreshToken | backend/src/utils/jwt.ts:17-21 | a refresh token is issued for any fresh payload and decodes to it with the refresh secret and a lifetime of `refreshExpiresIn` |
| Jwt.Verify | backend/src/utils/jwt.ts:23-29 | verification succeeds exactly for a well-formed token signed with the key and not yet expired, and returns its claims |
| Jwt.VerifyToken | backend/src/utils/jwt.ts:23-29 | access verification uses the access secret, and every failure is the one error "Invalid or expired token" |
| Jwt.VerifyRefreshToken | backend/src/utils/jwt.ts:31-37 | refresh verification uses the refresh secret, and every failure is the one error "Invalid or expired refresh token" |
| Jwt.AccessRoundTrip | backend/src/utils/jwt.ts:11-15 | an access token verifies back to its payload before it expires and fails from then on |
| Jwt.RefreshRoundTrip | backend/src/utils/jwt.ts:17-21 | a refresh token verifies back to its payload before it expires and fails from then on |
| Jwt.KindsDoNotMix | backend/src/utils/jwt.ts:12-13 | with distinct secrets, an access token fails refresh verification and a refresh token fails access verification |
| Validation.RequiredField | backend/src/controllers/auth.controller.ts:10-16 | a required field has no issue exactly when it is present and passes its checks, and every issue is on that field |
| Validation.OptionalField | backend/src/controllers/tenant.controller.ts:18-24 | an optional field has no issue exactly when it is absent or passes its checks |
| Validation.JsLength | backend/src/controllers/auth.controller.ts:13-14 | the length zod's `.min` and `.max` compare counts UTF-16 code units: one per character up to U+FFFF, two beyond, so it equals the character count for text within the Basic Multilingual Plane |
| Validation.JsLengthChar | backend/src/controllers/auth.controller.ts:13-14 | a single character counts one UTF-16 unit up to U+FFFF and two beyond |
| Validation.JsLengthAppend | backend/src/controllers/auth.controller.ts:13-14 | the length of a concatenation is the sum of the lengths, so every string's length is the sum of its characters' counts |
| Validation.AstralCountsTwice | backend/src/controllers/tenant.controller.ts:14 | an emoji counts as two, so four emoji pass an eight-unit minimum |
| AuthMiddleware.Request.constructor | backend/src/middleware/auth.ts:6-18 | a request arrives with no `user` and no `tenant` attached; only the middleware set them |
| AuthMiddleware.BearerToken | backend/src/middleware/auth.ts:23-27 | a token is present exactly when the header starts with "Bearer ", and it is the header without those seven characters |
| AuthMiddleware.Principal | backend/src/middleware/auth.ts:27-31 | the principal of a header exists exactly when its bearer token verifies as an access token, and it is that token's payload |
| AuthMiddleware.PrincipalIsSigned | backend/src/middleware/auth.ts:29-31 | a principal is always the payload of an unexpired token signed with the access secret |
| AuthMiddleware.AuthenticateJWT | backend/src/middleware/auth.ts:20-37 | no bearer header is 401 "No token provided"; a token that fails is 401 "Invalid or expired token" and leaves `user` alone; otherwise `user` is the payload and the request goes on |
| AuthMiddleware.OptionalAuth | backend/src/middleware/auth.ts:39-54 | the request always goes on, and `user` is set exactly when the bearer token verifies |
| AuthMiddleware.RequireRole | backend/src/middleware/auth.ts:56-67 | no user is 401; a role outside the list is 403; the request goes on exactly when the user's role is in the list, with nothing changed |
| TenantMiddleware.ExtractTenantContext | backend/src/middleware/tenant.ts:10-44 | a missing id is 400, an unknown tenant 404, an inactive one 403; the request goes on exactly for an active tenant, whose summary is then attached with the requested id |
| TenantMiddleware.CheckTenantAccess | backend/src/middleware/tenant.ts:56-78 | 401 without a user, then 400 without a tenant, then 403 on a tenant mismatch; it goes on exactly when the user's tenant is the request's tenant, and changes nothing |
| TenantMiddleware.SubdomainOf | backend/src/middleware/tenant.ts:95 | the subdomain is the text of the host before its first '.' |
| TenantMiddleware.ExtractTenantFromSubdomain | backend/src/middleware/tenant.ts:83-118 | the request always goes on; a missing host or a reserved label ("", "www", "api") changes nothing; the tenant is attached only when the label names an active tenant |
| AuthController.RegisterIssues | backend/src/controllers/auth.controller.ts:10-16 | the registration schema reports no issue exactly when the body is accepted |
| AuthController.ParseRegister | backend/src/controllers/auth.controller.ts:10-16 | a body is accepted exactly when it meets the schema; the result carries its fields, and the role defaults to staff |
| AuthController.ParseLogin | backend/src/controllers/auth.controller.ts:18-22 | a login body is accepted exactly when it has an email, a password and a uuid tenant id, and the result carries them |
| AuthController.LoginIssues | backend/src/controllers/auth.controller.ts:18-22 | the login schema reports no issue exactly when the body is accepted |
| AuthController.ParseRefresh | backend/src/controllers/auth.controller.ts:24-26 | a refresh body is accepted exactly when it carries a refresh token string |
| AuthController.PayloadOf | backend/src/controllers/auth.controller.ts:78-83 | the token payload carries the same id, tenant, email and role as the user record the response shows |
| AuthController.IssueTokens | backend/src/controllers/auth.controller.ts:78-86 | the access and refresh tokens both carry the user's id, tenant, email and role, signed with their own secrets and lifetimes |
| AuthController.Register | backend/src/controllers/auth.controller.ts:28-107 | a duplicate (tenant, email) is 400 before the tenant is checked; a missing or inactive tenant is 404; a failed insert is 500 "Registration failed"; the registration succeeds exactly when the pair is free, the tenant is active and the id is free; success adds exactly one user with a hashed password and the parsed role, and returns 201 with its tokens and `expiresIn` 3600; a failure stores nothing |
| AuthController.Authenticate | backend/src/controllers/auth.controller.ts:114-132 | credentials pass exactly for an existing, active user whose hash matches the password |
| AuthController.RegisteredUserCanLogIn | backend/src/controllers/auth.controller.ts:123-132 | a stored, active user logs in with the password whose hash was stored |
| AuthController.Login | backend/src/controllers/auth.controller.ts:109-176 | every credential failure is the same 401 "Invalid credentials" and stores nothing; success sets only that user's `lastLogin` and returns its session |
| AuthController.RefreshAsWritten | backend/src/controllers/auth.controller.ts:178-199 | as written, every request whose body parses is refused with 401 "Invalid or expired refresh token" |
| AuthController.RefreshToken | backend/src/controllers/auth.controller.ts:178-199 | corrected: a new access token is issued exactly when the refresh token verifies, and it carries the verified payload unchanged; every other failure is 401 |
| AuthController.RefreshKeepsPrincipal | backend/src/controllers/auth.controller.ts:183-186 | a refresh before expiry yields an access token that authenticates as the very same payload until that access token expires |
| AuthController.ExpiredRefreshIsUnauthorized | backend/src/controllers/auth.controller.ts:180-198 | a refresh token presented once it has expired is 401 "Invalid or expired refresh token", whatever the access-token lifetime |
| AuthController.RefreshAsWrittenRefusesValidToken | backend/src/controllers/auth.controller.ts:183-186 | a freshly issued refresh token is refused as written and accepted by the corrected operation |
| TenantController.DefaultAccentMatches | backend/src/controllers/tenant.controller.ts:49 | the default accent colour itself matches the colour pattern |
| TenantController.CreateIssues | backend/src/controllers/tenant.controller.ts:9-16 | the provisioning schema reports no issue exactly when the body is accepted |
| TenantController.ParseCreate | backend/src/controllers/tenant.controller.ts:9-16 | a body is accepted exactly when the name has 1 to 255 UTF-16 units, the subdomain 3 to 100 characters from [a-z0-9-], the colour (if any) is '#' and six hex digits, the admin email is an email, the password has 8 or more UTF-16 units and the admin name is non-empty |
| TenantController.UpdateIssues | backend/src/controllers/tenant.controller.ts:18-24 | the update schema reports no issue exactly when the body is accepted |
| TenantController.ParseUpdate | backend/src/controllers/tenant.controller.ts:18-24 | an update is accepted exactly when each given field meets its rule; the update carries exactly the given fields |
| TenantController.AccentOf | backend/src/controllers/tenant.controller.ts:49 | a given non-empty colour is kept, and a missing one becomes "#C0B8A7" |
| TenantController.AcceptedAccentIsKept | backend/src/controllers/tenant.controller.ts:49 | a colour the schema accepted is never replaced by the default |
| TenantController.CreateTenant | backend/src/controllers/tenant.controller.ts:26-109 | a taken subdomain is 400 and stores nothing; a failed insert is 500 "Failed to create tenant" and stores nothing; success adds the tenant and one admin of that tenant, returns 201 with tokens for the admin in the new tenant, and the admin can then log in |
| TenantController.GetTenant | backend/src/controllers/tenant.controller.ts:111-144 | 404 exactly for an unknown id; otherwise 200 with the stored record, inactive or not |
| TenantController.UpdateTenant | backend/src/controllers/tenant.controller.ts:146-180 | a rejected body changes nothing; an unknown id is 500 "Failed to update tenant"; otherwise exactly that tenant gets the given fields and the response shows it |
| TenantController.UpdateTouchesOnlyBranding | backend/src/controllers/tenant.controller.ts:151-153 | an update keeps the subdomain, plan and activity of its tenant and leaves every other tenant unchanged |
| TenantRoutes.CreateTenantRoute | backend/src/routes/tenant.routes.ts:12 | provisioning runs with no authentication; the store changes exactly when the response is 201 |
| TenantRoutes.Outcome | backend/src/app.ts:48 | a handler's response reaches the client as it is, and what it throws reaches the client as the error handler's response |
| TenantRoutes.RunScope | backend/src/routes/tenant.routes.ts:15-16 | on one request, tenant resolution runs before authentication, and the request goes on exactly when its principal belongs to the active tenant the path names |
| TenantRoutes.TenantScope | backend/src/routes/tenant.routes.ts:15-16 | the tenant chain in front of `GET /:tenantId` and, identically, of the catalogue and AI routes (lines 26 and 28) goes on only for a caller of the active tenant the path names, and hands on that caller and that tenant |
| TenantRoutes.GetTenantRoute | backend/src/routes/tenant.routes.ts:15-16 | the record is returned (200) exactly to an authenticated caller of the active tenant named; a caller of another tenant gets 403, and an unknown tenant is 404 whatever the token |
| TenantRoutes.AdminScope | backend/src/routes/tenant.routes.ts:17-22 | the chain goes on exactly for an admin of the active tenant named; other members of that tenant get 403 "Insufficient permissions" |
| TenantRoutes.PatchTenantRoute | backend/src/routes/tenant.routes.ts:17-23 | the store changes only for an admin of the active tenant named, and then only in that tenant's branding fields; every refusal leaves it unchanged |
| TenantRoutes.OrdersChain | backend/src/routes/tenant.routes.ts:27 | the orders chain refuses every request; for an active tenant the refusal is 401 "Authentication required", whatever the Authorization header |
| TenantRoutes.SelfRegisteredAdminRebrands | backend/src/controllers/auth.controller.ts:15 | a valid registration body asking for the role "admin" in an active tenant, followed by a `PATCH /:tenantId` carrying that session's access token, is answered 200 and writes the update to that tenant |
| TenantRoutes.SessionTokenAuthenticates | backend/src/routes/tenant.routes.ts:16 | a session's access token, sent as a bearer header, authenticates as exactly the user it was issued for until it expires, and not afterwards |

## Left out

- Configuration loading from the environment (backend/src/config/env.ts) is
  not part of this model; the two secrets and two lifetimes are a `Config`
  value.
- Cryptography is abstract. Token signatures are a codec plus the signing key
  kept inside the token. bcrypt is a given `hash` and `compare` whose one law
  is that a password matches its own hash. zod's email, uuid and URL
  recognisers are given predicates.
- zod's issues are modelled for string fields only. A field of another JSON
  type, and zod's exact wording beyond the messages named in the model, are
  not modelled.
- Database failures (lost connection, timeouts) are not modelled. The only
  failure paths are the ones the data decides: an unknown id and a taken
  unique key. So the 500 answers of `extractTenantContext`, `getTenant`
  ("Failed to fetch tenant") and `login` ("Login failed") cannot arise in the
  model.
- Timestamps are out: `createdAt` and `updatedAt`, and the `createdAt` fields
  of the registration and provisioning responses. `lastLogin` is the abstract
  clock value `now`.
- AuthMiddleware.AuthenticateJWT: `req.user` holds the four payload fields;
  the `iat` and `exp` claims that `jwt.verify` also returns are not kept on
  the request.
- Logging, helmet, CORS, the rate limiters, request parsing and the
  framework's dispatch are not modelled. A route is modelled as its
  middleware chain followed by its handler. A handler's thrown error
  is taken to reach `errorHandler`. That holds under Express 5, which passes
  the rejected promise of an `async` handler on to the error middleware;
  under Express 4 it holds only with a wrapper such as
  `express-async-errors`, which backend/src/app.ts does not import. The
  framework version is not part of this model.
- Check-then-insert races between concurrent requests are not modelled; each
  operation runs atomically.
- The catalogue, order and AI sub-routers have no handlers. Only the chains
  in front of them are modelled.

## Findings

| source | as written | input that shows it | evidently intended | confidence | as-written member | corrected member |
|---|---|---|---|---|---|---|
| backend/src/controllers/auth.controller.ts:183-186 | the object returned by `verifyRefreshToken` still carries `iat` and `exp`, and it is passed as it is to `generateToken`, which signs with `expiresIn`; jsonwebtoken rejects `expiresIn` when the payload already has `exp`, and the catch block turns that into 401 | any refresh token just issued by login, sent at once as `{ "refreshToken": ... }` | a new access token for the verified payload | high, not executed | AuthController.RefreshAsWritten (with AuthController.RefreshAsWrittenRefusesValidToken) | AuthController.RefreshToken (with AuthController.RefreshKeepsPrincipal) |
