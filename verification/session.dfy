/**
 * What the authentication context hands to every component: whether the
 * session is still being restored, the signed-in user, and that user's
 * profile row once it has been fetched.
 */
module Session {
  import opened Wrappers

  type UserId = string

  /**
   * A row of `profiles` as the components read it. The access gate reads
   * `isPandit`; the navigation bar reads `userType`. The two are separate
   * columns and nothing here ties them together.
   */
  datatype Profile = Profile(id: UserId, fullName: string, isPandit: bool, userType: Option<string>)

  datatype AuthState = AuthState(loading: bool, user: Option<UserId>, profile: Option<Profile>)

  const AuthPath := "/auth"
  const DashboardPath := "/dashboard"
  const PanditDashboardPath := "/pandit-dashboard"
  const HomePath := "/"
}
