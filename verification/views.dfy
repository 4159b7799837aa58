/** The screen the single-page app shows (`ViewState` in App.tsx) and the
    three disjoint classes the session rules are written against. */
module Views {
  import opened Common

  datatype ViewState =
    | Landing
    | Login
    | Signup
    | ForgotPassword
    | ResetPassword
    | Dashboard
    | ShopSettings
    | Support
    | Feedback
    | UploadFiles
    | RoAudit
    | RoDetail
    | AskAi

  /** Public marketing pages, sign-in forms, and views that need a session. */
  datatype ViewClass = Public | Auth | Protected

  function ClassOf(v: ViewState): ViewClass {
    match v
    case Landing => Public
    case Login | Signup | ForgotPassword | ResetPassword => Auth
    case Dashboard | ShopSettings | Support | Feedback | UploadFiles
      | RoAudit | RoDetail | AskAi => Protected
  }

  predicate IsPublic(v: ViewState) { ClassOf(v) == Public }
  predicate IsAuth(v: ViewState) { ClassOf(v) == Auth }
  predicate IsProtected(v: ViewState) { ClassOf(v) == Protected }

  /** A labelled navigation button and the view it opens. */
  datatype NavItem = NavItem(caption: string, view: ViewState)

  /** The string literal each view has in the TypeScript union type. */
  function Name(v: ViewState): string {
    match v
    case Landing => "landing"
    case Login => "login"
    case Signup => "signup"
    case ForgotPassword => "forgot-password"
    case ResetPassword => "reset-password"
    case Dashboard => "dashboard"
    case ShopSettings => "shop-settings"
    case Support => "support"
    case Feedback => "feedback"
    case UploadFiles => "upload-files"
    case RoAudit => "ro-audit"
    case RoDetail => "ro-detail"
    case AskAi => "ask-ai"
  }

  /** Reads a string as a member of the union type; strings outside it, such
      as the footer's "about" or "contact", are not views. */
  function Parse(s: string): (r: Option<ViewState>)
    ensures r.Some? ==> Name(r.value) == s
    ensures r.None? ==> forall v :: Name(v) != s
  {
    if s == "landing" then Some(Landing)
    else if s == "login" then Some(Login)
    else if s == "signup" then Some(Signup)
    else if s == "forgot-password" then Some(ForgotPassword)
    else if s == "reset-password" then Some(ResetPassword)
    else if s == "dashboard" then Some(Dashboard)
    else if s == "shop-settings" then Some(ShopSettings)
    else if s == "support" then Some(Support)
    else if s == "feedback" then Some(Feedback)
    else if s == "upload-files" then Some(UploadFiles)
    else if s == "ro-audit" then Some(RoAudit)
    else if s == "ro-detail" then Some(RoDetail)
    else if s == "ask-ai" then Some(AskAi)
    else None
  }

  /** Every view's literal reads back as that view, so literals are distinct. */
  lemma ParseName(v: ViewState)
    ensures Parse(Name(v)) == Some(v)
  {
  }

  lemma NameInjective(v: ViewState, w: ViewState)
    ensures Name(v) == Name(w) ==> v == w
  {
    ParseName(v);
    ParseName(w);
  }

  /** The classes partition the views: each view is in exactly one. */
  lemma ClassesPartition(v: ViewState)
    ensures IsPublic(v) || IsAuth(v) || IsProtected(v)
    ensures !(IsPublic(v) && IsAuth(v)) && !(IsPublic(v) && IsProtected(v))
      && !(IsAuth(v) && IsProtected(v))
    ensures IsPublic(v) <==> v == Landing
    ensures IsAuth(v) <==> v in {Login, Signup, ForgotPassword, ResetPassword}
  {
  }
}
