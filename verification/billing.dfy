/** The two billing buttons, written the same way in components/Dashboard.tsx
    and components/ShopSettings.tsx: which one is offered, and what a click
    does with the backend's answer. */
module Billing {
  import opened Common
  import opened Records

  /** "Manage billing" opens the billing portal, "Upgrade" starts checkout. */
  datatype Action = ManageBilling | Upgrade

  /** The one button offered: the portal for a live subscription, checkout
      otherwise. */
  function Offer(shop: Option<ShopInfo>): (a: Action)
    ensures a == ManageBilling <==> IsActive(shop)
    ensures a == Upgrade <==> !IsActive(shop)
  {
    if IsActive(shop) then ManageBilling else Upgrade
  }

  /** What the billing function returned: a body with an optional URL, or a
      thrown error with its message. */
  datatype Outcome = Answered(url: Option<string>) | Threw(message: string)

  function Fallback(a: Action): string {
    match a
    case Upgrade => "Could not start checkout"
    case ManageBilling => "Could not open billing portal"
  }

  /** The button's state after the click settles, and where the browser is
      sent. */
  datatype Clicked = Clicked(loading: bool, error: Option<string>, redirect: Option<string>)

  /** `handleUpgrade` / `handleManageBilling`: redirect to a non-empty URL,
      surface a failure's message (or the button's fallback), and always end
      the loading state. */
  function Click(a: Action, outcome: Outcome): (r: Clicked)
    ensures !r.loading
    ensures r.redirect.Some? <==> outcome.Answered? && PresentTruthy(outcome.url)
    ensures r.redirect.Some? ==> r.redirect.value == outcome.url.value
    ensures r.error.Some? <==> outcome.Threw?
    ensures r.error.Some? ==> r.error.value == OrElse(outcome.message, Fallback(a))
    ensures r.error.Some? ==> Truthy(r.error.value)
  {
    match outcome
    case Answered(url) => Clicked(false, None, if PresentTruthy(url) then url else None)
    case Threw(message) => Clicked(false, Some(OrElse(message, Fallback(a))), None)
  }

  /** A click never both redirects and reports an error, an answer without
      a URL leaves the button quietly idle, and a failure without its own
      message names the button the shop was offered. */
  lemma ClickAgreesWithOffer(shop: Option<ShopInfo>, outcome: Outcome)
    ensures !(Click(Offer(shop), outcome).redirect.Some? && Click(Offer(shop), outcome).error.Some?)
    ensures Click(Offer(shop), Answered(None)) == Clicked(false, None, None)
    ensures Click(Offer(shop), Threw("")).error
         == Some(if IsActive(shop) then "Could not open billing portal" else "Could not start checkout")
  {
  }
}
