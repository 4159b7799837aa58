/** The top-level controller (App.tsx): the current view, the session, the
    shop profile, the loading flag and the maintenance bypass, with the
    reducers that the mount effect, the auth listener and the gate apply. */
module AppController {
  import opened Common
  import opened Views
  import opened Records
  import MaintenanceGateForm

  datatype AppState = AppState(
    view: ViewState,
    session: Option<Session>,
    loading: bool,
    maintenanceUnlocked: bool,
    shop: Option<ShopInfo>)

  /** The state before the mount effect runs. */
  function Initial(): (st: AppState)
    ensures st.view == Landing && IsPublic(st.view)
    ensures st.session.None? && st.shop.None?
    ensures st.loading && !st.maintenanceUnlocked
  {
    AppState(Landing, None, true, false, None)
  }

  /** The local-storage key that remembers a maintenance bypass. */
  const BypassKey := "simpli:maintenance:unlock"

  /** Whether local storage records a bypass: only the exact value "true". */
  predicate BypassStored(storage: map<string, string>) {
    BypassKey in storage && storage[BypassKey] == "true"
  }

  /** The start of the mount effect: a stored bypass unlocks the gate. */
  function Mount(st: AppState, storage: map<string, string>): (r: AppState)
    ensures r.maintenanceUnlocked <==> st.maintenanceUnlocked || BypassStored(storage)
    ensures r.(maintenanceUnlocked := st.maintenanceUnlocked) == st
  {
    if BypassStored(storage) then st.(maintenanceUnlocked := true) else st
  }

  /** Result of the one-shot `getSession()` call; a rejected promise is
      `LookupFailed`. */
  datatype SessionLookup = LookupOk(session: Option<Session>) | LookupFailed

  /** The initial session lookup: a session moves only `landing` to the
      dashboard, so a deep-linked view survives; the spinner always ends. */
  function OnInitialSession(st: AppState, lookup: SessionLookup): (r: AppState)
    ensures !r.loading
    ensures r.session == (if lookup.LookupOk? then lookup.session else st.session)
    ensures r.view != st.view ==> st.view == Landing && r.view == Dashboard
    ensures lookup.LookupOk? && lookup.session.Some? && st.view == Landing ==> r.view == Dashboard
    ensures (lookup.LookupFailed? || lookup.session.None?) ==> r.view == st.view
    ensures r.shop == st.shop && r.maintenanceUnlocked == st.maintenanceUnlocked
  {
    match lookup
    case LookupFailed => st.(loading := false)
    case LookupOk(session) =>
      var view := if session.Some? then (if st.view == Landing then Dashboard else st.view) else st.view;
      st.(session := session, view := view, loading := false)
  }

  /** The view reducer of the auth listener. With a session the public and
      auth views go to the dashboard; without one the protected views go to
      landing; every other view stays. */
  function AuthChangeView(hasSession: bool, prev: ViewState): (next: ViewState)
    ensures hasSession ==> IsProtected(next)
    ensures hasSession && IsProtected(prev) ==> next == prev
    ensures hasSession && !IsProtected(prev) ==> next == Dashboard
    ensures !hasSession ==> !IsProtected(next)
    ensures !hasSession && IsProtected(prev) ==> next == Landing
    ensures !hasSession && !IsProtected(prev) ==> next == prev
  {
    if hasSession then
      if prev in {Landing, Login, Signup, ForgotPassword, ResetPassword} then Dashboard else prev
    else if prev in {Dashboard, ShopSettings, Support, Feedback, UploadFiles, RoAudit, RoDetail, AskAi} then
      Landing
    else
      prev
  }

  /** A view agrees with the session when it is protected exactly when a
      session is present. */
  predicate Consistent(view: ViewState, hasSession: bool) {
    IsProtected(view) <==> hasSession
  }

  /** Every auth-change signal reconciles the view with the session, and a
      second identical signal changes nothing. */
  lemma AuthChangeReconciles(hasSession: bool, prev: ViewState)
    ensures Consistent(AuthChangeView(hasSession, prev), hasSession)
    ensures AuthChangeView(hasSession, AuthChangeView(hasSession, prev)) == AuthChangeView(hasSession, prev)
    ensures Consistent(prev, hasSession) ==> AuthChangeView(hasSession, prev) == prev
  {
  }

  /** Result of `fetchShopInfo`: a row or null, or a thrown error. */
  datatype ShopFetch = Fetched(shop: Option<ShopInfo>) | FetchFailed

  /** The shop after an auth change: fetched only for a session with a user
      id, and cleared when there is none or the fetch throws. */
  function ShopAfterAuthChange(session: Option<Session>, fetch: ShopFetch): (shop: Option<ShopInfo>)
    ensures shop.Some? ==> HasUserId(session) && fetch == Fetched(shop)
    ensures HasUserId(session) && fetch.Fetched? ==> shop == fetch.shop
    ensures !HasUserId(session) || fetch.FetchFailed? ==> shop.None?
  {
    if HasUserId(session) then
      match fetch
      case Fetched(s) => s
      case FetchFailed => None
    else
      None
  }

  /** The whole auth listener, with the fetch taken as already settled. */
  function OnAuthChange(st: AppState, session: Option<Session>, fetch: ShopFetch): (r: AppState)
    ensures r.session == session
    ensures r.shop.Some? ==> HasUserId(session) && fetch == Fetched(r.shop)
    ensures session.None? ==> r.shop.None?
    ensures HasUserId(session) && fetch.Fetched? ==> r.shop == fetch.shop
    ensures Consistent(r.view, session.Some?)
    ensures r.view == AuthChangeView(session.Some?, st.view)
    ensures r.loading == st.loading && r.maintenanceUnlocked == st.maintenanceUnlocked
  {
    st.(session := session,
        shop := ShopAfterAuthChange(session, fetch),
        view := AuthChangeView(session.Some?, st.view))
  }

  /** Build-time configuration. */
  datatype Env = Env(maintenanceMode: Option<string>, previewPassword: Option<string>)

  predicate MaintenanceEnabled(env: Env) {
    env.maintenanceMode == Some("true")
  }

  function PreviewPassword(env: Env): string {
    OptOrElse(env.previewPassword, "")
  }

  /** What the app renders. */
  datatype Screen = Spinner | Gate(previewPassword: string) | Shell(view: ViewState)

  /** The spinner while loading, then the gate while maintenance is on and
      not bypassed, then the shell showing the current view. */
  function Render(st: AppState, env: Env): (s: Screen)
    ensures s.Spinner? <==> st.loading
    ensures s.Gate? <==> !st.loading && MaintenanceEnabled(env) && !st.maintenanceUnlocked
    ensures s.Gate? ==> s.previewPassword == PreviewPassword(env)
    ensures s.Shell? ==> s.view == st.view
  {
    if st.loading then Spinner
    else if MaintenanceEnabled(env) && !st.maintenanceUnlocked then Gate(PreviewPassword(env))
    else Shell(st.view)
  }

  /** `handleUnlock` passed to the gate: unlock now and remember it. */
  function Unlock(st: AppState, storage: map<string, string>): (r: (AppState, map<string, string>))
    ensures r.0.maintenanceUnlocked && BypassStored(r.1)
    ensures r.0.(maintenanceUnlocked := st.maintenanceUnlocked) == st
    ensures forall k :: k in storage && k != BypassKey ==> k in r.1 && r.1[k] == storage[k]
  {
    (st.(maintenanceUnlocked := true), storage[BypassKey := "true"])
  }

  /** Once the gate calls `onUnlock`, the app is shown, and a reload that
      mounts from the saved storage starts unlocked. */
  lemma GateUnlockOpensApp(st: AppState, env: Env, gate: MaintenanceGateForm.GateState,
                           storage: map<string, string>)
    requires Render(st, env).Gate?
    requires MaintenanceGateForm.HandleUnlock(gate, PreviewPassword(env)).unlock
    ensures Render(Unlock(st, storage).0, env) == Shell(st.view)
    ensures Mount(Initial(), Unlock(st, storage).1).maintenanceUnlocked
  {
  }

  /** Everything that can happen to the controller, in the order it
      happens. */
  datatype Event =
    | InitialLookup(lookup: SessionLookup)
    | AuthChange(session: Option<Session>, fetch: ShopFetch)
    | Navigate(target: ViewState)
    | GateUnlocked

  function Step(st: AppState, e: Event): (r: AppState)
    ensures e.Navigate? ==> r.view == e.target && r.(view := st.view) == st
    ensures e.GateUnlocked? ==> r.maintenanceUnlocked && r.(maintenanceUnlocked := st.maintenanceUnlocked) == st
  {
    match e
    case InitialLookup(lookup) => OnInitialSession(st, lookup)
    case AuthChange(session, fetch) => OnAuthChange(st, session, fetch)
    case Navigate(target) => st.(view := target)
    case GateUnlocked => st.(maintenanceUnlocked := true)
  }

  function Run(st: AppState, es: seq<Event>): AppState
    decreases |es|
  {
    if es == [] then st else Run(Step(st, es[0]), es[1..])
  }

  lemma {:induction false} RunSnoc(st: AppState, es: seq<Event>, e: Event)
    ensures Run(st, es + [e]) == Step(Run(st, es), e)
    decreases |es|
  {
    if es == [] {
      assert es + [e] == [e];
    } else {
      assert (es + [e])[0] == es[0];
      assert (es + [e])[1..] == es[1..] + [e];
      RunSnoc(Step(st, es[0]), es[1..], e);
    }
  }

  /** Whatever happened before, the last auth-change signal decides: after
      it the view is protected exactly when that signal carried a session. */
  lemma LastAuthChangeDecides(st: AppState, es: seq<Event>, session: Option<Session>, fetch: ShopFetch)
    ensures Consistent(Run(st, es + [AuthChange(session, fetch)]).view, session.Some?)
    ensures Run(st, es + [AuthChange(session, fetch)]).session == session
  {
    RunSnoc(st, es, AuthChange(session, fetch));
  }

  /** Without explicit navigation the app only ever shows the landing page
      or the dashboard. */
  lemma {:induction false} WithoutNavigationOnlyLandingOrDashboard(st: AppState, es: seq<Event>)
    requires st.view == Landing || st.view == Dashboard
    requires forall i :: 0 <= i < |es| ==> !es[i].Navigate?
    ensures Run(st, es).view == Landing || Run(st, es).view == Dashboard
    decreases |es|
  {
    if es != [] {
      assert !es[0].Navigate?;
      WithoutNavigationOnlyLandingOrDashboard(Step(st, es[0]), es[1..]);
    }
  }

  /** A bypass, once granted, is never revoked. */
  lemma {:induction false} UnlockIsPermanent(st: AppState, es: seq<Event>)
    requires st.maintenanceUnlocked
    ensures Run(st, es).maintenanceUnlocked
    decreases |es|
  {
    if es != [] {
      UnlockIsPermanent(Step(st, es[0]), es[1..]);
    }
  }

  /** Sign in from the landing page, then sign out: back on landing with no
      shop. */
  lemma SignInThenSignOut(s: Session, fetch: ShopFetch)
    ensures Run(Initial(), [AuthChange(Some(s), fetch)]).view == Dashboard
    ensures Run(Initial(), [AuthChange(Some(s), fetch), AuthChange(None, fetch)]).view == Landing
    ensures Run(Initial(), [AuthChange(Some(s), fetch), AuthChange(None, fetch)]).shop.None?
  {
    var es := [AuthChange(Some(s), fetch), AuthChange(None, fetch)];
    var signedIn := Step(Initial(), es[0]);
    assert es[1..] == [AuthChange(None, fetch)];
    assert Run(Initial(), es) == Run(signedIn, [AuthChange(None, fetch)]);
    var signedOut := Step(signedIn, AuthChange(None, fetch));
    assert [AuthChange(None, fetch)][1..] == [];
    assert Run(signedIn, [AuthChange(None, fetch)]) == Run(signedOut, []) == signedOut;
    assert signedIn.view == Dashboard;
  }

  /** A deep-linked protected view is kept by the initial session lookup. */
  lemma DeepLinkSurvivesInitialLookup(st: AppState, s: Session)
    requires IsProtected(st.view)
    ensures OnInitialSession(st, LookupOk(Some(s))).view == st.view
  {
  }
}
