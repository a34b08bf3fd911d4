/** Small value types shared by every module of the model. */
module Common {

  datatype Option<+T> = None | Some(value: T)

  datatype Result<+T, +E> = Success(value: T) | Failure(error: E)

  /** The three fixed roles of a user (the enum of the registration schema). */
  datatype Role = Admin | Staff | Customer

  function RoleName(r: Role): string
  {
    match r
    case Admin => "admin"
    case Staff => "staff"
    case Customer => "customer"
  }

  /** The string form accepted by `z.enum(['admin', 'staff', 'customer'])`. */
  function ParseRole(s: string): (r: Option<Role>)
    ensures r.Some? <==> s in {"admin", "staff", "customer"}
    ensures r.Some? ==> RoleName(r.value) == s
  {
    if s == "admin" then Some(Admin)
    else if s == "staff" then Some(Staff)
    else if s == "customer" then Some(Customer)
    else None
  }

  lemma ParseRoleName(r: Role)
    ensures ParseRole(RoleName(r)) == Some(r)
  {
  }

  /** The branding theme of a tenant (the enum of the tenant update schema). */
  datatype Theme = Light | Dark | Auto

  function ThemeName(t: Theme): string
  {
    match t
    case Light => "light"
    case Dark => "dark"
    case Auto => "auto"
  }

  function ParseTheme(s: string): (r: Option<Theme>)
    ensures r.Some? <==> s in {"light", "dark", "auto"}
    ensures r.Some? ==> ThemeName(r.value) == s
  {
    if s == "light" then Some(Light)
    else if s == "dark" then Some(Dark)
    else if s == "auto" then Some(Auto)
    else None
  }
}
