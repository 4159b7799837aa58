# SimpliParts front-end decision rules, in Dafny

SimpliParts is a marketing site and dashboard shell for auto-repair shops. Its
client keeps one "current view" value and a handful of forms. This project
models the decision rules inside those pieces as pure functions. Each function
takes the component state and the abstract answer of the backend call, and
returns the new state and the requests the handler would send:

- `Views`: the 13-member `ViewState` union. Each view is in exactly one class:
  public (`landing`), auth (the four sign-in pages) or protected (the eight
  dashboard pages).
- `AppController` (App.tsx): the initial state and the mount effect with its
  stored maintenance bypass. Also the initial session lookup, and the auth
  listener, which reconciles the view and fetches or clears the shop profile.
  Also the render choice (spinner, maintenance gate or app shell), and runs of
  events.
- `HeaderNav`, `SidebarNav`, `DashboardView`: which view classes show which
  buttons, where the navigation items lead, and the headings derived from the
  session and the shop row.
- `Billing`: the "Manage billing" / "Upgrade" choice and the click handlers
  that the dashboard and the settings page share.
- `ResetPasswordForm`, `ForgotPasswordForm`, `MaintenanceGateForm`,
  `ShopSettingsForm`, `FeedbackForm`: the validators and submit handlers of
  each form.
- `Common`: the JavaScript semantics these rules rely on. This covers string
  truthiness and `||` fallbacks, `String.prototype.trim`, `.length` in UTF-16
  code units, and `Number.prototype.toString` for the six-digit reset code.

Backend answers are inputs, for example `WriteOutcome = Written | WriteFailed(message)`.
The clock (`nowMs`), `Math.random()` (a `real` in [0, 1)), the confirmation
dialog and local storage (a `map<string, string>`) are inputs too.

Notes on the code as written:

- `ViewState` has no informational pages (`about`, `contact`, …). `Views.Parse`
  rejects those names, which the footer uses as targets.
- A failed initial session lookup leaves the session as it was. It does not
  force "no session".
- The usage-guard function (`guardUsage`) is never called, so there is no
  usage gate to model.

Two consequences the proofs make explicit:

- The maintenance gate trims what the visitor types but not the configured
  preview password. A preview password that starts or ends with whitespace can
  therefore never be matched (`MaintenanceGateForm.PaddedPreviewNeverMatches`).
- The desktop header offers "Sign Out" on every protected view except
  `feedback` (`HeaderNav.DesktopSignOutViews`).

## Model

| member | source | states |
|---|---|---|
| Common.Trim | components/Feedback.tsx:81 | `trim()` is the run of the input left after its leading and trailing whitespace, everything cut off is whitespace, no whitespace is left at either end, and the result is empty exactly when the input holds only whitespace |
| Common.TrimIsUnpadded | components/MaintenanceGate.tsx:65 | `trim()` leaves no whitespace at either end |
| Common.Utf16Length | components/ResetPassword.tsx:26 | `.length` counts at least one and at most two units per character, exactly one per character for text inside the Basic Multilingual Plane, and more units than characters once any character lies above U+FFFF |
| Common.Utf16LengthOfChar | components/ResetPassword.tsx:26 | a single character counts two units above U+FFFF and one otherwise |
| Common.Utf16LengthAppend | components/ResetPassword.tsx:26 | the length of a concatenation is the sum of the two lengths, so with the one-character case it fixes `.length` of every string |
| Common.DecimalString | components/ForgotPassword.tsx:10 | `toString()` of a non-negative integer is all digits, has no leading zero, and has as many digits as the number |
| Common.ParseDecimalString | components/ForgotPassword.tsx:10 | reading the decimal text back gives the number (round trip) |
| Common.SixDigitRendering | components/ForgotPassword.tsx:9-11 | every number in [100000, 999999] is written with exactly six characters |
| Views.Parse | App.tsx:27-40 | a string is a view exactly when it is one of the 13 literals of the union, and it maps to the view with that literal |
| Views.ParseName | App.tsx:27-40 | each view's literal reads back as that view |
| Views.NameInjective | App.tsx:27-40 | no two views share a literal |
| Views.ClassesPartition | App.tsx:97-107 | public, auth and protected are disjoint and cover all views, and public is `landing` alone |
| AppController.Initial | App.tsx:43-47 | the app starts on `landing`, loading, with no session, no shop and the gate locked |
| AppController.Mount | App.tsx:55-58 | a stored bypass of exactly `'true'` unlocks the gate, and nothing else changes |
| AppController.OnInitialSession | App.tsx:61-73 | the lookup turns only `landing` into `dashboard` and only when it returns a session; a failed or empty lookup keeps the view; loading ends either way |
| AppController.AuthChangeView | App.tsx:94-108 | with a session, public and auth views go to `dashboard` and protected views stay; without one, protected views go to `landing` and the rest stay |
| AppController.AuthChangeReconciles | App.tsx:94-108 | after any auth signal the view is protected exactly when a session is present; a repeated signal is a no-op; an already consistent view is kept |
| AppController.ShopAfterAuthChange | App.tsx:81-92 | a shop is held only when the session has a user id and the fetch returned that shop; no user id or a thrown fetch gives null |
| AppController.OnAuthChange | App.tsx:78-109 | the listener stores the new session, stores the fetched shop for a session with a user id, clears the shop when signed out, and leaves the view consistent with the session |
| AppController.Render | App.tsx:135-145 | the spinner shows exactly while loading, the gate exactly when maintenance is on and not unlocked, and otherwise the current view |
| AppController.Unlock | App.tsx:130-133 | the gate's callback unlocks the app and stores the bypass, leaving other storage keys alone |
| AppController.GateUnlockOpensApp | App.tsx:130-145 | once the gate accepts, the app shell shows the current view, and a reload from the saved storage starts unlocked |
| AppController.Step | App.tsx:114-131 | an explicit navigation sets exactly its target, whatever the session, and changes nothing else; the gate's unlock sets only the unlocked flag |
| AppController.RunSnoc | App.tsx:78-109 | running events and then one more equals applying that event to the earlier result |
| AppController.LastAuthChangeDecides | App.tsx:94-108 | whatever happened before, the last auth signal decides: the view is then protected exactly when that signal had a session |
| AppController.WithoutNavigationOnlyLandingOrDashboard | App.tsx:61-108 | with no explicit navigation, lookups, auth signals and unlocks only ever show `landing` or `dashboard` |
| AppController.UnlockIsPermanent | App.tsx:130-133 | no later event re-locks the maintenance gate |
| AppController.SignInThenSignOut | App.tsx:94-105 | from the start, signing in shows `dashboard`, and signing out again shows `landing` with no shop |
| AppController.DeepLinkSurvivesInitialLookup | App.tsx:63-66 | a protected view is kept when the initial lookup finds a session |
| HeaderNav.AppViewIsNotPublic | components/Header.tsx:38 | `isAppView` holds exactly off the public class |
| HeaderNav.DashboardViewsAreProtected | components/Header.tsx:39 | `isDashboardView` is the protected class, the same eight views the listener sends to `landing` on sign-out |
| HeaderNav.DesktopSignOutViews | components/Header.tsx:122-136 | desktop Sign Out shows on the protected views except `feedback`, and never together with Log in / Get Started |
| HeaderNav.MobileNavMatchesSidebar | components/Header.tsx:41-48 | the mobile menu leads to the sidebar's destinations in the sidebar's order, all protected |
| HeaderNav.MobileMenuSections | components/Header.tsx:154-197 | in the open menu exactly one of Sign Out and Log in / Get Started shows; the dashboard navigation shows exactly on a protected view with a session, never with the section links, and right after sign-in |
| HeaderNav.SignOut | components/Header.tsx:31-35 | sign-out ends on the public `landing` with the menu closed |
| HeaderNav.SignOutSettles | components/Header.tsx:31-35 | the listener's following session-less signal keeps `landing` and clears the shop |
| HeaderNav.NavigateTo | components/Header.tsx:77-81 | the target view is shown and the menu closes |
| HeaderNav.ScrollToSection | components/Header.tsx:50-56 | a section link always ends on `landing` with the menu closed, switching view only when away from it |
| HeaderNav.ToggleMenu | components/Header.tsx:147 | the menu button flips the menu and keeps the view |
| HeaderNav.HeaderMovesLikeApp | components/Header.tsx:77-81 | `navigateTo`, sign-out and the section links change the view exactly as an app-level navigation to the same target does, and navigating hides the mobile sections |
| SidebarNav.NavTargetsAreProtected | components/Sidebar.tsx:22-29 | every sidebar destination is protected, they are distinct, and `feedback` is not one of them |
| SidebarNav.ActiveCountOfDistinct | components/Sidebar.tsx:49-50 | with distinct destinations, one item is highlighted when the view is a destination and none otherwise |
| SidebarNav.AtMostOneActive | components/Sidebar.tsx:50 | at most one sidebar item is highlighted |
| SidebarNav.Click | components/Sidebar.tsx:54 | clicking an item shows that item's view, which is protected, and highlights the item |
| SidebarNav.ClickHighlightsOnlyItem | components/Sidebar.tsx:49-54 | after a click the clicked item is the only highlighted one |
| SidebarNav.PropOrDefault | components/Sidebar.tsx:15-16 | a heading prop's default (`'My Shop'`, `'Enterprise Plan'`) applies only when the prop is left out; a passed empty string is kept, unlike a truthiness fallback |
| SidebarNav.SidebarHeading | components/Sidebar.tsx:15-39 | a left-out name shows `'My Shop'` with avatar `M`, a left-out sub-heading shows `'Enterprise Plan'`, passed props show as given, a passed non-empty name gives its first character as the avatar, and a passed empty name gives avatar `S` |
| SidebarNav.AvatarLetter | components/Sidebar.tsx:36 | the avatar is one character: the heading's first, or `'S'` for an empty heading |
| Billing.Offer | components/Dashboard.tsx:106-114 | exactly one button is offered: Manage billing when the subscription is active, Upgrade otherwise |
| Billing.Click | components/Dashboard.tsx:31-55 | loading always ends; a non-empty URL is followed; a thrown error shows its message or the button's fallback, never an empty one |
| Billing.ClickAgreesWithOffer | components/Dashboard.tsx:31-55 | a click never both redirects and errors; an answer without a URL leaves the button idle; a message-less failure names the button the shop was offered |
| DashboardView.Credits | components/Dashboard.tsx:58 | credits are the stored count, or 0 only when the shop or the count is missing |
| DashboardView.CreditsReadOnlyTheCount | components/Dashboard.tsx:58 | the count ignores the shop's name and subscription, shows a stored 0 as 0, and any non-zero value is the stored one |
| DashboardView.FirstName | components/Dashboard.tsx:17 | the greeting is the metadata first name when present and non-empty, otherwise `'Partner'` |
| DashboardView.MetadataShopName | components/Dashboard.tsx:18 | the metadata shop name when present and non-empty, otherwise `'My Shop'`, pinned both ways |
| DashboardView.HeadingName | components/Dashboard.tsx:65 | the heading is the shop row's name, then the metadata name, then `'My Shop'`, and is never empty |
| DashboardView.HeadingSub | components/Dashboard.tsx:66 | the sub-heading is `'Active'` exactly when the subscription is active, otherwise `'Free Tier'` |
| DashboardView.AvatarFromHeading | components/Dashboard.tsx:62-67 | the dashboard never shows the `'S'` avatar fallback, because its heading is never empty |
| DashboardView.HeadingAgreesWithBilling | components/Dashboard.tsx:57-66 | the sub-heading says Active exactly when Manage billing is offered |
| DashboardView.QuickActionsAreProtected | components/Dashboard.tsx:126-133 | both quick actions lead to protected views that are also sidebar destinations |
| ForgotPasswordForm.ResetCodeValue | components/ForgotPassword.tsx:9-11 | the code's value lies in [100000, 999999] for every random draw |
| ForgotPasswordForm.GenerateResetCode | components/ForgotPassword.tsx:9-11 | the code is six decimal digits without a leading zero, and reads back as its value |
| ForgotPasswordForm.HandleForgotPassword | components/ForgotPassword.tsx:23-70 | the stored row carries the email, the code and an expiry exactly 15 minutes on; an insert error sets the error with no email, success or redirect; otherwise success and a redirect to `reset-password` after 3000 ms; loading ends either way |
| ForgotPasswordForm.EmailFailureIsIgnored | components/ForgotPassword.tsx:54-59 | a failed email send gives the same result as a sent one |
| ResetPasswordForm.Contains | components/ResetPassword.tsx:30-37 | a class test holds exactly when some character of the password is in the class |
| ResetPasswordForm.ValidatePassword | components/ResetPassword.tsx:26-40 | null exactly for a strong password (8+ units, a lowercase, an uppercase, a digit); the length message is given exactly when the password is short; otherwise the first failing rule in order length, lowercase, uppercase, digit |
| ResetPasswordForm.PreCheck | components/ResetPassword.tsx:46-56 | the strength message comes first, and the mismatch message only for a strong password that differs from its confirmation |
| ResetPasswordForm.HandleResetPassword | components/ResetPassword.tsx:42-96 | a pre-check failure sends nothing and leaves loading alone; otherwise the code is verified first; a missing code gives "Invalid or expired reset code"; a found code requests the update, and success follows exactly when it is accepted, a rejection showing its message or "Failed to update password"; the typed fields never change |
| ResetPasswordForm.SendRequests | components/ResetPassword.tsx:58-95 | after the pre-check: the verify request always goes first; a missing code stops there with the bad-code message; a found code sends the update, and its answer decides between success and the update's message; loading ends in every branch |
| ResetPasswordForm.SevenCharactersWithAnEmojiAreLongEnough | components/ResetPassword.tsx:26-27 | seven characters of which one lies above U+FFFF pass the eight-unit length rule |
| ResetPasswordForm.MismatchOnlyForStrongPassword | components/ResetPassword.tsx:47-56 | a mismatch reported before any request implies the password itself is valid |
| ResetPasswordForm.TryAgain | components/ResetPassword.tsx:130-136 | Try Again clears success, email, code, password and confirmation, and keeps the rest |
| ResetPasswordForm.TryAgainRestartsForm | components/ResetPassword.tsx:130-136 | Try Again gives back the initial form apart from loading, error and the visibility toggles, and an immediate resubmit is refused by the length rule with no request |
| ResetPasswordForm.LookupCode | components/ResetPassword.tsx:62-73 | the code is found exactly when one row passes the email, code, unused and unexpired filters |
| ResetPasswordForm.NoKeyNoMatch | components/ResetPassword.tsx:62-69 | with no row for the email and code, no row passes the filters |
| ResetPasswordForm.MemberIsCounted | components/ResetPassword.tsx:62-69 | a stored row counts toward its email and code |
| ResetPasswordForm.UniqueKeyLookup | components/ResetPassword.tsx:62-69 | with a single row for the email and code, the filters pass exactly that row or none |
| ResetPasswordForm.IssuedCodeAcceptedUntilExpiry | components/ResetPassword.tsx:62-69 | an issued, unused code whose email and code are unique is accepted exactly until 15 minutes after it was issued |
| MaintenanceGateForm.HandleNotify | components/MaintenanceGate.tsx:21-56 | a blank email is refused with "Please enter an email." and no insert; otherwise the typed email is inserted; a clean insert says it will notify, a `'23505'` duplicate says already on the list, both succeed and clear the email; any other error says unable to save and keeps the email |
| MaintenanceGateForm.NotifyAgain | components/MaintenanceGate.tsx:40-54 | after a success an immediate resubmit is refused locally with no insert; after a failure it retries the same email |
| MaintenanceGateForm.HandleUnlock | components/MaintenanceGate.tsx:58-72 | no preview password unlocks without storing; otherwise the trimmed input must equal it, which clears the error and stores the bypass; a wrong one sets the error and does not unlock |
| MaintenanceGateForm.PaddedPreviewNeverMatches | components/MaintenanceGate.tsx:65 | a preview password with whitespace at either end can never be matched |
| MaintenanceGateForm.LeadingPadIsNeverTrimmed | components/MaintenanceGate.tsx:65 | no trimmed input equals text that starts with whitespace |
| MaintenanceGateForm.TrailingPadIsNeverTrimmed | components/MaintenanceGate.tsx:65 | no trimmed input equals text that ends with whitespace |
| MaintenanceGateForm.UnlockIgnoresPadding | components/MaintenanceGate.tsx:65 | whitespace typed before or after the password, in any amounts, leaves the whole unlock step unchanged apart from the typed field |
| MaintenanceGateForm.TrimIgnoresPadding | components/MaintenanceGate.tsx:65 | trimming ignores any whitespace added before and any added after |
| MaintenanceGateForm.TrimStartIgnoresPadding | components/MaintenanceGate.tsx:65 | trimming the front ignores whitespace added in front |
| MaintenanceGateForm.TrimEndIgnoresPadding | components/MaintenanceGate.tsx:65 | trimming the end ignores whitespace added at the end |
| MaintenanceGateForm.TrimStartAbsorbs | components/MaintenanceGate.tsx:65 | trailing padding does not change where trimming the front stops, once the end is trimmed too |
| ShopSettingsForm.WithForm | components/ShopSettings.tsx:217-222 | replacing one provider's form leaves the other provider's form and every other field alone |
| ShopSettingsForm.FindIntegration | components/ShopSettings.tsx:175 | the result is the first row for the provider, and null exactly when there is none |
| ShopSettingsForm.SaveIntegration | components/ShopSettings.tsx:146-196 | a blank key sets only `<provider>_api_key` and writes nothing; without a shop id nothing is written or reported; a new form always inserts an `'active'` row with an empty store id as null; a stored one always updates the first matching row by id, and with no such row nothing is written but success is still reported; a failed write shows `<provider>_general` and no reload; otherwise the saved message and a reload; forms are untouched |
| ShopSettingsForm.DeleteIntegration | components/ShopSettings.tsx:198-230 | no stored row or no confirmation is a no-op; a confirmed delete of a stored row always deletes it by id; success empties that provider's form with `isNew` set and reloads; failure shows `<provider>_general`; the other provider's form is untouched |
| ShopSettingsForm.DeletedIntegrationStaysCleared | components/ShopSettings.tsx:217-224 | after a successful delete, reloading rows without that provider leaves its form empty and new |
| ShopSettingsForm.SaveShopInfo | components/ShopSettings.tsx:232-257 | a blank name sets only `shop_name` and writes nothing; otherwise the typed name is written to the loaded shop, with a success message or a `shop_general` error |
| ShopSettingsForm.LoadShop | components/ShopSettings.tsx:80-83 | a loaded row replaces the shop and the name field; no row changes nothing; nothing else changes |
| ShopSettingsForm.RenamedShopReloads | components/ShopSettings.tsx:242-251 | a successful rename targets the loaded shop, and reloading the renamed row keeps the typed name in the field |
| ShopSettingsForm.LoadIntegrations | components/ShopSettings.tsx:107-128 | each provider with a row gets a stored form from its first row; a provider without one keeps its form; nothing but the rows and the two forms changes |
| ShopSettingsForm.SavedIntegrationReloads | components/ShopSettings.tsx:160-170 | reloading the row a new integration inserted gives back the same key and store id, now marked stored |
| ShopSettingsForm.ToggleApiKeyVisibility | components/ShopSettings.tsx:285-290 | the toggle flips the given provider's visibility and no other |
| ShopSettingsForm.ToggleTwiceRestoresVisibility | components/ShopSettings.tsx:285-290 | two toggles restore what every provider shows |
| ShopSettingsForm.StatusLabel | components/ShopSettings.tsx:355-357 | Active exactly for an active subscription (the dashboard's test), Past Due exactly for `past_due`, Free Tier otherwise |
| ShopSettingsForm.HeadingName | components/ShopSettings.tsx:297 | the sidebar heading is the shop's non-empty name, otherwise `'My Shop'` |
| ShopSettingsForm.HeadingMatchesDashboard | components/ShopSettings.tsx:297 | the settings heading equals the dashboard heading for a user without a sign-up shop name |
| FeedbackForm.HandleInputChange | components/Feedback.tsx:35-37 | only the named field changes |
| FeedbackForm.IsFormValid | components/Feedback.tsx:81 | valid exactly when title and description each hold a non-whitespace character |
| FeedbackForm.HandleSubmit | components/Feedback.tsx:39-79 | with no user id or shop id the status is error and nothing is inserted; otherwise the row carries the shop id, user id, type and trimmed text; success resets the draft to `bug` with empty text; failure keeps it; submitting ends false |
| FeedbackForm.ValidDraftSendsCleanText | components/Feedback.tsx:57-65 | a draft whose title and description each hold a non-whitespace character (exactly `isFormValid`) sends a non-empty title and description, neither starting nor ending with whitespace |

## Left out

- Backend calls (lib/supabase.ts, lib/billing.ts, every table query, edge function and auth call) are abstract answers passed in. The profile-then-shop lookup inside `fetchShopInfo` and the settings page's own `getShopId` and the query halves of `fetchShopData` and `fetchIntegrations` are not modelled beyond their results. The `loading` flag `fetchShopData` clears is not modelled.
- The dashboard loads its own copy of the shop row (Dashboard.tsx:19-29) and keeps the previous value when that load throws. `DashboardView` takes the loaded row as an input.
- Async ordering: every handler runs to completion as one step. Races between the auth listener, the initial lookup and fetches are not modelled, and neither is the listener's unsubscribe on unmount.
- Timers: the 3-second redirect after a reset-code request is returned as an intent (`redirect`, with its delay), not run. The header's 100 ms delayed scroll is not modelled.
- DOM effects: scrolling, `window.scrollTo`, the section id passed to `scrollToSection`, the header's scroll-shadow listener and all markup and styling.
- `localStorage` appears only as the bypass key in a map. `window.location` redirects appear only as the URL returned by `Billing.Click`.
- Dates: the clock is an integer count of milliseconds. The model does not cover `setMinutes` in local time across a daylight-saving change, `toISOString`, or the database's timestamp comparison.
- ForgotPasswordForm.ResetCodeValue: uses exact real arithmetic instead of IEEE doubles. The largest double below 1 still floors to 999999, so the bound is unchanged.
- ResetPasswordForm.HandleResetPassword: a code lookup that throws a network error is modelled like a missing code ("Invalid or expired reset code"). The source would show the thrown error's own message instead.
- SidebarNav.AvatarLetter: returns the first whole character. `charAt(0)` returns half of a surrogate pair for a character above U+FFFF.
- Common.Trim: strings are sequences of Unicode characters, so lone surrogates are not modelled.
- FeedbackForm.HandleInputChange: the type field takes one of the five feedback types. The source's `handleInputChange` accepts any string.
- Header's logo button (Header.tsx:97-109) never changes the view. On `dashboard` it does nothing, and elsewhere it only scrolls to the top, so it is left out with the other scrolling.
- Header's Log in / Sign up cross-links (Header.tsx:138-143) are plain `navigateTo` calls, covered by `HeaderNav.NavigateTo`.
- App's `navigateToSignup` is an explicit navigation, covered by `AppController.Step`.
- Login.tsx and Signup.tsx bind fields straight into the auth calls and have no logic of their own.
- The ROI calculator (floating point and number formatting) and the process animation (timers) are left out.
- Placeholder pages with static mock data (ROAudit, RODetail, AskAI, UploadFiles, SearchRO, Support) and static pages (About, Contact, PrivacyPolicy, TermsOfService, Security, Pricing, Trust, Workflow, Hero, Footer, AuthLayout, Logo, Button) are left out.
- Console logging is left out.
