/**
 * Who is calling: the id and role the authentication middleware attaches to a
 * request, and the two roles of backend/src/models/userModel.js.
 */
module Identity {
  import opened Wrappers

  /** The id of a user, as carried in a token and stored in references. */
  type UserId = string

  datatype Role = UserRole | AdminRole

  function RoleName(r: Role): string {
    match r
    case UserRole => "user"
    case AdminRole => "admin"
  }

  /** The role enum check: a string names a role exactly when it parses. */
  function ParseRole(s: string): (r: Option<Role>)
    ensures r.Some? ==> RoleName(r.value) == s
    ensures r.None? ==> forall role :: RoleName(role) != s
  {
    if s == "user" then Some(UserRole) else if s == "admin" then Some(AdminRole) else None
  }

  /** The authenticated caller of a protected route. */
  datatype Caller = Caller(id: UserId, role: Role)
}
