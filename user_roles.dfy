/** The three kinds of user of the dashboard, shared by the login page and the sidebar. */
module UserRoles {
  /** `'student' | 'faculty' | 'admin'`. */
  datatype Role = Student | Faculty | Admin

  /** The string a role is written as, in routes and e-mail addresses. */
  function RoleName(role: Role): (r: string)
    ensures r in ["student", "faculty", "admin"]
    ensures r != "" && '/' !in r
  {
    match role
    case Student => "student"
    case Faculty => "faculty"
    case Admin => "admin"
  }

  /** Different roles are written differently. */
  lemma RoleNameInjective(a: Role, b: Role)
    requires RoleName(a) == RoleName(b)
    ensures a == b
  {
  }
}
