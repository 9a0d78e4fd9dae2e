/**
 * The `ProtectedRoute` wrapper: from the session and the two guard flags it
 * decides, in an effect, where to navigate, and, in its render, whether to
 * show a spinner, nothing, or the protected children.
 */
module AccessGate {
  import opened Wrappers
  import opened Session

  /** The two props of `ProtectedRoute`, both defaulting to false. */
  datatype Guard = Guard(requirePandit: bool, requireUser: bool)

  /** What the render returns. */
  datatype View = Spinner | Blank | Children

  /** A signed-in requester (profile loaded, not a pandit) on a pandit-only view. */
  predicate RequesterOnPanditView(s: AuthState, g: Guard)
  {
    g.requirePandit && s.profile.Some? && !s.profile.value.isPandit
  }

  /** A signed-in pandit (profile loaded) on a requester-only view. */
  predicate PanditOnRequesterView(s: AuthState, g: Guard)
  {
    g.requireUser && s.profile.Some? && s.profile.value.isPandit
  }

  /** The navigation the effect performs, if any. */
  function Redirect(s: AuthState, g: Guard): (r: Option<string>)
    ensures s.loading ==> r == None
    ensures r == Some(AuthPath) <==> !s.loading && s.user.None?
    ensures r == Some(DashboardPath) <==> !s.loading && s.user.Some? && RequesterOnPanditView(s, g)
    ensures r == Some(PanditDashboardPath) <==> !s.loading && s.user.Some? && PanditOnRequesterView(s, g)
    ensures r == None || r == Some(AuthPath) || r == Some(DashboardPath) || r == Some(PanditDashboardPath)
  {
    if s.loading then None
    else if s.user.None? then Some(AuthPath)
    else if g.requirePandit && s.profile.Some? && !s.profile.value.isPandit then Some(DashboardPath)
    else if g.requireUser && s.profile.Some? && s.profile.value.isPandit then Some(PanditDashboardPath)
    else None
  }

  /** What the component renders. */
  function Render(s: AuthState, g: Guard): (v: View)
    ensures v == Spinner <==> s.loading
    ensures v == Children <==>
      !s.loading && s.user.Some? && !RequesterOnPanditView(s, g) && !PanditOnRequesterView(s, g)
  {
    if s.loading then Spinner
    else if s.user.None? then Blank
    else if g.requirePandit && s.profile.Some? && !s.profile.value.isPandit then Blank
    else if g.requireUser && s.profile.Some? && s.profile.value.isPandit then Blank
    else Children
  }

  /**
   * The effect and the render repeat one chain of conditions: the children
   * appear exactly when the session is settled and the effect stays put, and
   * the render is blank exactly when the effect navigates away.
   */
  lemma EffectAgreesWithRender(s: AuthState, g: Guard)
    ensures Render(s, g) == Children <==> !s.loading && Redirect(s, g) == None
    ensures Render(s, g) == Blank <==> Redirect(s, g).Some?
  {
  }

  /** While the session is being restored: spinner, no navigation, whatever the user and profile. */
  lemma PendingNeverRedirects(s: AuthState, g: Guard)
    requires s.loading
    ensures Render(s, g) == Spinner && Redirect(s, g) == None
  {
  }

  /** A signed-in user whose profile has not arrived yet passes every guard. */
  lemma MissingProfilePassesEveryGuard(s: AuthState, g: Guard)
    requires !s.loading && s.user.Some? && s.profile.None?
    ensures Render(s, g) == Children && Redirect(s, g) == None
  {
  }

  /** With neither flag, any signed-in user sees the children. */
  lemma UnflaggedAdmitsEverySignedInUser(s: AuthState)
    requires !s.loading && s.user.Some?
    ensures Render(s, Guard(false, false)) == Children && Redirect(s, Guard(false, false)) == None
  {
  }

  /**
   * `requirePandit` is tested first, but the two role tests can never both
   * fire; with both flags set, no user with a loaded profile gets through,
   * and the target is decided by the role alone.
   */
  lemma BothFlagsAdmitNoLoadedProfile(s: AuthState)
    requires !s.loading && s.user.Some? && s.profile.Some?
    ensures Render(s, Guard(true, true)) == Blank
    ensures Redirect(s, Guard(true, true)) ==
      if s.profile.value.isPandit then Some(PanditDashboardPath) else Some(DashboardPath)
  {
  }
}
