/** The site header (components/Header.tsx): which buttons it shows on each
    view and how its handlers move between views. */
module HeaderNav {
  import opened Common
  import opened Views
  import AppController
  import SidebarNav

  /** The view and the header's own mobile-menu flag. */
  datatype Nav = Nav(view: ViewState, menuOpen: bool)

  /** `isAppView`: anything but the landing page. */
  predicate IsAppView(v: ViewState) {
    v != Landing
  }

  lemma AppViewIsNotPublic(v: ViewState)
    ensures IsAppView(v) <==> !IsPublic(v)
  {
  }

  const DashboardViews: seq<ViewState> :=
    [Dashboard, ShopSettings, Support, Feedback, UploadFiles, RoAudit, RoDetail, AskAi]

  /** `isDashboardView`: membership of the list above. */
  predicate IsDashboardView(v: ViewState) {
    v in DashboardViews
  }

  /** The header's dashboard list is the protected class, the very views the
      auth listener sends back to landing on sign-out. */
  lemma DashboardViewsAreProtected(v: ViewState)
    ensures IsDashboardView(v) <==> IsProtected(v)
    ensures IsDashboardView(v) <==> AppController.AuthChangeView(false, v) == Landing && v != Landing
  {
  }

  /** Desktop "Log in" and "Get Started": landing page, signed out. */
  predicate ShowsDesktopAuthButtons(v: ViewState, hasSession: bool) {
    v == Landing && !hasSession
  }

  /** Desktop "Sign Out": the listed dashboard views. */
  predicate ShowsDesktopSignOut(v: ViewState) {
    v in {Dashboard, ShopSettings, Support, UploadFiles, RoAudit, RoDetail, AskAi}
  }

  /** The desktop sign-out button is on every protected view except the
      feedback page, and never together with the sign-in buttons. */
  lemma DesktopSignOutViews(v: ViewState, hasSession: bool)
    ensures ShowsDesktopSignOut(v) <==> IsProtected(v) && v != Feedback
    ensures !(ShowsDesktopSignOut(v) && ShowsDesktopAuthButtons(v, hasSession))
  {
  }

  /** The sections of the mobile menu, each shown only while the menu is
      open: section links on landing, the dashboard navigation on a
      dashboard view with a session, Log in / Get Started without a session,
      Sign Out with one. */
  predicate ShowsMobileLandingLinks(nav: Nav) { nav.menuOpen && nav.view == Landing }
  predicate ShowsMobileDashboardNav(nav: Nav, hasSession: bool) {
    nav.menuOpen && hasSession && IsDashboardView(nav.view)
  }
  predicate ShowsMobileAuthButtons(nav: Nav, hasSession: bool) { nav.menuOpen && !hasSession }
  predicate ShowsMobileSignOut(nav: Nav, hasSession: bool) { nav.menuOpen && hasSession }

  /** In the open menu exactly one of Sign Out and the sign-in buttons shows,
      the dashboard navigation only on a protected view with a session and
      never with the section links; after the listener admits a session the
      open menu offers the dashboard navigation. */
  lemma MobileMenuSections(nav: Nav, hasSession: bool)
    ensures nav.menuOpen ==> (ShowsMobileSignOut(nav, hasSession) <==> !ShowsMobileAuthButtons(nav, hasSession))
    ensures ShowsMobileSignOut(nav, hasSession) <==> nav.menuOpen && hasSession
    ensures ShowsMobileDashboardNav(nav, hasSession) <==> nav.menuOpen && hasSession && IsProtected(nav.view)
    ensures !(ShowsMobileDashboardNav(nav, hasSession) && ShowsMobileLandingLinks(nav))
    ensures nav.menuOpen ==> ShowsMobileDashboardNav(nav.(view := AppController.AuthChangeView(true, nav.view)), true)
  {
    DashboardViewsAreProtected(nav.view);
    DashboardViewsAreProtected(AppController.AuthChangeView(true, nav.view));
  }

  const MobileNavItems: seq<NavItem> := [
    NavItem("Dashboard", Dashboard),
    NavItem("Upload Files", UploadFiles),
    NavItem("Audit RO", RoAudit),
    NavItem("Ask AI", AskAi),
    NavItem("Shop Settings", ShopSettings),
    NavItem("Support", Support)
  ]

  /** The mobile menu offers the sidebar's destinations in the sidebar's
      order, all protected; only the first caption differs. */
  lemma MobileNavMatchesSidebar()
    ensures SidebarNav.Targets(MobileNavItems) == SidebarNav.Targets(SidebarNav.NavItems)
    ensures forall i :: 0 <= i < |MobileNavItems| ==> IsProtected(MobileNavItems[i].view)
  {
  }

  /** `handleSignOut`: back to landing with the menu closed. */
  function SignOut(nav: Nav): (r: Nav)
    ensures r.view == Landing && !r.menuOpen
    ensures IsPublic(r.view)
  {
    Nav(Landing, false)
  }

  /** Signing out and then receiving the listener's session-less signal
      leaves the app on landing with no shop. */
  lemma SignOutSettles(nav: Nav, st: AppController.AppState, fetch: AppController.ShopFetch)
    requires st.view == SignOut(nav).view
    ensures AppController.OnAuthChange(st, None, fetch).view == Landing
    ensures AppController.OnAuthChange(st, None, fetch).shop.None?
  {
  }

  /** `navigateTo`: exactly the target, menu closed. */
  function NavigateTo(nav: Nav, target: ViewState): (r: Nav)
    ensures r.view == target && !r.menuOpen
  {
    Nav(target, false)
  }

  /** `scrollToSection`: closes the menu and, from any other view, switches
      to landing first; the scrolling itself is left out. */
  function ScrollToSection(nav: Nav): (r: Nav)
    ensures r.view == Landing && !r.menuOpen
    ensures nav.view == Landing ==> r.view == nav.view
  {
    var closed := nav.(menuOpen := false);
    if nav.view != Landing then closed.(view := Landing) else closed
  }

  /** The header's handlers move the view exactly as an app-level navigation
      to the same target does: `navigateTo` to its target, and sign-out and
      the section links to landing; each also closes the menu, so the mobile
      sections hide. */
  lemma HeaderMovesLikeApp(nav: Nav, st: AppController.AppState, target: ViewState, hasSession: bool)
    requires st.view == nav.view
    ensures NavigateTo(nav, target).view == AppController.Step(st, AppController.Navigate(target)).view
    ensures ScrollToSection(nav).view == AppController.Step(st, AppController.Navigate(Landing)).view
    ensures SignOut(nav).view == AppController.Step(st, AppController.Navigate(Landing)).view
    ensures !ShowsMobileDashboardNav(NavigateTo(nav, target), hasSession)
      && !ShowsMobileSignOut(NavigateTo(nav, target), hasSession)
  {
  }

  /** The menu button flips the menu and keeps the view. */
  function ToggleMenu(nav: Nav): (r: Nav)
    ensures r.menuOpen != nav.menuOpen && r.view == nav.view
  {
    nav.(menuOpen := !nav.menuOpen)
  }
}
