/** The HTTP side of the core: the JSON bodies it answers with, a response
    (status and body), and the outcome of one middleware step: hand the
    request on, or stop with a response. */
module Http {
  import opened Common
  import opened Persistence

  /** One entry of the `details` list of a validation failure. */
  datatype Detail = Detail(path: string, message: string)

  /** The user record returned by registration and login. */
  datatype AccountView = AccountView(id: string, email: string, name: string, role: Role, tenantId: string)

  /** The admin record returned by tenant provisioning. */
  datatype AdminView = AdminView(id: string, email: string, name: string, role: Role)

  /** The tenant record returned by tenant provisioning. */
  datatype CreatedTenantView = CreatedTenantView(id: string, name: string, subdomain: string, accentColor: string, plan: string)

  /** The tenant record returned by a tenant update: every column but the
      activity flag. */
  datatype UpdatedTenantView = UpdatedTenantView(
    id: string, name: string, subdomain: string, logoUrl: Option<string>, accentColor: string,
    theme: Theme, plan: string, customDomain: Option<string>)

  function UpdatedView(t: Tenant): UpdatedTenantView
  {
    UpdatedTenantView(t.id, t.name, t.subdomain, t.logoUrl, t.accentColor, t.theme, t.plan, t.customDomain)
  }

  datatype Body =
    | ErrorBody(error: string)
    | ValidationBody(error: string, details: seq<Detail>)
    | RouteNotFoundBody(error: string, path: string)
    | SessionBody(user: AccountView, token: string, refreshToken: string, expiresIn: int)
    | RefreshedBody(token: string, expiresIn: int)
    | ProvisionedBody(tenant: CreatedTenantView, admin: AdminView, token: string, refreshToken: string)
    | TenantBody(record: Tenant)
    | UpdatedTenantBody(updated: UpdatedTenantView)

  datatype Response = Response(status: int, body: Body)

  /** A middleware either calls `next()` or ends the request with a response. */
  datatype Step = Next | Halt(response: Response)

  /** `res.status(status).json({ error: message })`. */
  function Reject(status: int, message: string): Step
  {
    Halt(Response(status, ErrorBody(message)))
  }
}
