/** The admin API's user records, as far as the client reads them. */
module AdminTypes {
  import opened Wrappers

  datatype UserStatus = Active | Inactive | Suspended

  datatype Role = Customer | Admin | Superadmin

  datatype User = User(id: string, firstName: string, phone: string, status: UserStatus, role: Role, createdAt: string)

  /** The `/admin/users` payload; `users` is None when the member is missing. */
  datatype UsersResponse = UsersResponse(message: string, users: Option<seq<User>>)

  /** The wire spelling of a status. */
  function StatusName(s: UserStatus): string {
    match s
    case Active => "active"
    case Inactive => "inactive"
    case Suspended => "suspended"
  }

  /** The wire spelling of a role. */
  function RoleName(r: Role): string {
    match r
    case Customer => "customer"
    case Admin => "admin"
    case Superadmin => "superadmin"
  }

  /** Each status has its own spelling. */
  lemma StatusNameInjective(a: UserStatus, b: UserStatus)
    requires StatusName(a) == StatusName(b)
    ensures a == b
  {
  }
}
