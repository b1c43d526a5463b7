/** The authentication helpers shared by the pages: role-based landing paths and single-row lookups. */
module Auth {
  import opened Wrappers

  const AdminRole: string := "admin"
  const UserRole: string := "user"

  /** What `signIn` and `signUp` give back: an error with its message, or a session with or without a user. */
  datatype AuthResponse = AuthError(message: string) | NoUser | WithUser(userId: string)

  /** `getRedirectPath`: administrators land on the admin area, everybody else on the dashboard. */
  function GetRedirectPath(role: string): (r: string)
    ensures r == "/admin" <==> role == AdminRole
    ensures r == "/dashboard" <==> role != AdminRole
  {
    if role == AdminRole then "/admin" else "/dashboard"
  }

  /** The stored role of a user, as the role table's single-row lookup returns it. */
  datatype RoleRow = RoleRow(role: string)

  /** `getUserRole`: no role when the lookup fails or finds no row, else the stored role, unchecked. */
  function GetUserRole(error: bool, data: Option<RoleRow>): (r: Option<string>)
    ensures r.None? <==> error || data.None?
    ensures r.Some? ==> r.value == data.value.role
  {
    if error || data.None? then None else Some(data.value.role)
  }

  datatype UserProfile = UserProfile(id: string, userId: string, email: string, fullName: Option<string>,
                                     avatarUrl: Option<string>)

  /** `getUserProfile`: no profile when the lookup fails or finds no row, else the row itself. */
  function GetUserProfile(error: bool, data: Option<UserProfile>): (r: Option<UserProfile>)
    ensures r.None? <==> error || data.None?
    ensures r.Some? ==> r == data
  {
    if error || data.None? then None else data
  }

  /** A failed lookup hides the row it may have carried. */
  lemma ErrorHidesRow(data: Option<RoleRow>, profile: Option<UserProfile>)
    ensures GetUserRole(true, data) == None && GetUserProfile(true, profile) == None
  {
  }
}
