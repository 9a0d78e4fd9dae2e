/**
 * The top navigation bar: which links it offers for a session (desktop row
 * and mobile menu), the account panel, the mobile menu toggle, and sign-out.
 */
module Navigation {
  import opened Wrappers
  import opened Session

  /** An entry of the desktop row: a link, or the cart button, which has no target. */
  datatype NavItem = Link(caption: string, to: string) | CartButton

  /** An entry of the mobile menu: a link and whether following it closes the menu. */
  datatype MenuLink = MenuLink(caption: string, to: string, closesMenu: bool)

  /** `profile?.user_type === 'pandit'`: the bar's own test of the role. */
  predicate PanditMenu(profile: Option<Profile>)
  {
    profile.Some? && profile.value.userType == Some("pandit")
  }

  /** The desktop row. */
  function DesktopItems(s: AuthState): seq<NavItem>
  {
    if s.user.None? then
      [Link("Sign In", AuthPath), Link("Get Started", AuthPath)]
    else if PanditMenu(s.profile) then
      [Link("Dashboard", PanditDashboardPath)]
    else
      [Link("Dashboard", DashboardPath), Link("Shop", "/shop"), Link("Book Pandit", "/book-pandit"),
       Link("My Bookings", "/bookings"), CartButton]
  }

  /** The links of the mobile menu, when it is open. */
  function MobileLinks(s: AuthState): seq<MenuLink>
  {
    if s.user.None? then
      [MenuLink("Sign In", AuthPath, true), MenuLink("Get Started", AuthPath, true)]
    else if PanditMenu(s.profile) then
      [MenuLink("Dashboard", PanditDashboardPath, true)]
    else
      [MenuLink("Dashboard", DashboardPath, true), MenuLink("Shop", "/shop", true),
       MenuLink("Book Pandit", "/book-pandit", true), MenuLink("My Bookings", "/bookings", true)]
  }

  /** The targets of the desktop row. */
  function DesktopTargets(s: AuthState): set<string>
  {
    set i | 0 <= i < |DesktopItems(s)| && DesktopItems(s)[i].Link? :: DesktopItems(s)[i].to
  }

  /** The targets of the mobile menu. */
  function MobileTargets(s: AuthState): set<string>
  {
    set i | 0 <= i < |MobileLinks(s)| :: MobileLinks(s)[i].to
  }

  /** The link targets offered to each kind of session. */
  lemma TargetsBySession(s: AuthState)
    ensures s.user.None? ==> DesktopTargets(s) == {AuthPath}
    ensures s.user.Some? && PanditMenu(s.profile) ==> DesktopTargets(s) == {PanditDashboardPath}
    ensures s.user.Some? && !PanditMenu(s.profile) ==>
      DesktopTargets(s) == {DashboardPath, "/shop", "/book-pandit", "/bookings"}
  {
    var items := DesktopItems(s);
    if s.user.None? {
      assert items[0].to in DesktopTargets(s);
    } else if PanditMenu(s.profile) {
      assert items[0].to in DesktopTargets(s);
    } else {
      assert items[0].to in DesktopTargets(s) && items[1].to in DesktopTargets(s);
      assert items[2].to in DesktopTargets(s) && items[3].to in DesktopTargets(s);
    }
  }

  /** The desktop row and the mobile menu offer the same labelled links, and every mobile link closes the menu. */
  lemma DesktopAndMobileAgree(s: AuthState)
    ensures DesktopTargets(s) == MobileTargets(s)
    ensures forall i :: 0 <= i < |MobileLinks(s)| ==> MobileLinks(s)[i].closesMenu
    ensures forall i :: 0 <= i < |MobileLinks(s)| ==>
      Link(MobileLinks(s)[i].caption, MobileLinks(s)[i].to) in DesktopItems(s)
  {
    var d, m := DesktopItems(s), MobileLinks(s);
    forall t | t in MobileTargets(s) ensures t in DesktopTargets(s) {
      var i :| 0 <= i < |m| && m[i].to == t;
      assert d[i].Link? && d[i].to == t;
    }
    forall t | t in DesktopTargets(s) ensures t in MobileTargets(s) {
      var i :| 0 <= i < |d| && d[i].Link? && d[i].to == t;
      assert m[i].to == t;
    }
    forall i | 0 <= i < |m| ensures Link(m[i].caption, m[i].to) in d {
      assert d[i] == Link(m[i].caption, m[i].to);
    }
  }

  /** The name in the account panel: `profile?.full_name || 'User'`. */
  function DisplayName(profile: Option<Profile>): (name: string)
    ensures name != ""
    ensures profile.Some? && profile.value.fullName != "" ==> name == profile.value.fullName
    ensures !(profile.Some? && profile.value.fullName != "") ==> name == "User"
  {
    if profile.Some? && profile.value.fullName != "" then profile.value.fullName else "User"
  }

  /** The role line of the account panel. */
  function RoleLabel(profile: Option<Profile>): (role: string)
    ensures role == "Pandit" <==> PanditMenu(profile)
    ensures role == "Pandit" || role == "User"
  {
    if PanditMenu(profile) then "Pandit" else "User"
  }

  /** The two steps of `handleSignOut`. */
  datatype Effect = CallSignOut | NavigateTo(path: string)

  /** The bar's own state: whether the mobile menu is open. */
  class NavBar {
    var isOpen: bool

    constructor ()
      ensures !isOpen
    {
      isOpen := false;
    }

    /** The menu button. */
    method ToggleMenu()
      modifies this
      ensures isOpen == !old(isOpen)
    {
      isOpen := !isOpen;
    }

    /** Following a mobile link. */
    method FollowMobileLink(link: MenuLink)
      modifies this
      ensures isOpen == (old(isOpen) && !link.closesMenu)
    {
      if link.closesMenu {
        isOpen := false;
      }
    }

    /** The links of the mobile menu on screen: none while it is closed. */
    function VisibleMobileLinks(s: AuthState): (links: seq<MenuLink>)
      reads this
      ensures links == [] <==> !isOpen
      ensures isOpen ==> links == MobileLinks(s)
    {
      if isOpen then MobileLinks(s) else []
    }

    /**
     * "Sign Out": await `signOut`, then go home. If `signOut` rejects, the
     * navigation is never reached. The menu is left as it was.
     */
    method HandleSignOut(signOutResolves: bool) returns (effects: seq<Effect>)
      ensures |effects| >= 1 && effects[0] == CallSignOut
      ensures NavigateTo(HomePath) in effects <==> signOutResolves
      ensures forall i :: 0 <= i < |effects| ==> effects[i] == CallSignOut || effects[i] == NavigateTo(HomePath)
      ensures |effects| == if signOutResolves then 2 else 1
    {
      effects := [CallSignOut];
      if signOutResolves {
        effects := effects + [NavigateTo(HomePath)];
      }
    }
  }
}
