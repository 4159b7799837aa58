/** What the dashboard (components/Dashboard.tsx) derives from the session
    and the shop row it loads. */
module DashboardView {
  import opened Common
  import opened Views
  import opened Records
  import Billing
  import SidebarNav

  /** The free-credit count shown: `free_credits_remaining ?? 0`, so a
      stored 0 stays 0 and only a missing shop or value falls back. */
  function Credits(shop: Option<ShopInfo>): (c: int)
    ensures shop.Some? && shop.value.freeCreditsRemaining.Some? ==> c == shop.value.freeCreditsRemaining.value
    ensures shop.None? || shop.value.freeCreditsRemaining.None? ==> c == 0
  {
    if shop.Some? && shop.value.freeCreditsRemaining.Some? then shop.value.freeCreditsRemaining.value else 0
  }

  /** The count reads nothing but the stored value: renaming the shop or
      changing its subscription never changes it, and a stored 0 is shown
      as 0, unlike a truthiness fallback that would also reach for the
      default. */
  lemma CreditsReadOnlyTheCount(shop: ShopInfo, name: string, status: Option<string>)
    ensures Credits(Some(shop.(name := name, subscriptionStatus := status))) == Credits(Some(shop))
    ensures shop.freeCreditsRemaining == Some(0) ==> Credits(Some(shop)) == 0
    ensures Credits(Some(shop)) != 0 ==> shop.freeCreditsRemaining == Some(Credits(Some(shop)))
  {
  }

  /** The greeting name: the metadata first name, or "Partner". */
  function FirstName(session: Option<Session>): (name: string)
    ensures Truthy(name)
    ensures session.Some? && PresentTruthy(session.value.metadata.firstName) ==>
      name == session.value.metadata.firstName.value
    ensures name != "Partner" ==> session.Some? && session.value.metadata.firstName == Some(name)
  {
    if session.Some? then OptOrElse(session.value.metadata.firstName, "Partner") else "Partner"
  }

  /** The shop name from sign-up metadata, or "My Shop". */
  function MetadataShopName(session: Option<Session>): (name: string)
    ensures Truthy(name)
    ensures session.Some? && PresentTruthy(session.value.metadata.shopName) ==>
      name == session.value.metadata.shopName.value
    ensures name != "My Shop" ==> session.Some? && session.value.metadata.shopName == Some(name)
  {
    if session.Some? then OptOrElse(session.value.metadata.shopName, "My Shop") else "My Shop"
  }

  /** The sidebar heading: the shop row's name, then the metadata name, then
      "My Shop"; never empty. */
  function HeadingName(shop: Option<ShopInfo>, session: Option<Session>): (name: string)
    ensures Truthy(name)
    ensures shop.Some? && Truthy(shop.value.name) ==> name == shop.value.name
    ensures (shop.None? || !Truthy(shop.value.name)) ==> name == MetadataShopName(session)
  {
    if shop.Some? then OrElse(shop.value.name, MetadataShopName(session)) else MetadataShopName(session)
  }

  /** The sidebar sub-heading. */
  function HeadingSub(shop: Option<ShopInfo>): (sub: string)
    ensures sub == "Active" <==> IsActive(shop)
    ensures sub == "Free Tier" <==> !IsActive(shop)
  {
    if IsActive(shop) then "Active" else "Free Tier"
  }

  /** The heading is never empty, so the sidebar avatar always shows the
      heading's own first letter rather than the "S" fallback. */
  lemma AvatarFromHeading(shop: Option<ShopInfo>, session: Option<Session>)
    ensures SidebarNav.AvatarLetter(HeadingName(shop, session)) == [HeadingName(shop, session)[0]]
  {
  }

  /** The sub-heading and the billing button always agree. */
  lemma HeadingAgreesWithBilling(shop: Option<ShopInfo>)
    ensures HeadingSub(shop) == "Active" <==> Billing.Offer(shop) == Billing.ManageBilling
  {
  }

  /** The two quick actions. */
  const QuickActions: seq<NavItem> := [NavItem("Upload RO", UploadFiles), NavItem("Audit RO", RoAudit)]

  /** Both quick actions open views that need a session, and both are
      sidebar destinations. */
  lemma QuickActionsAreProtected()
    ensures forall i :: 0 <= i < |QuickActions| ==>
      IsProtected(QuickActions[i].view) && QuickActions[i].view in SidebarNav.Targets(SidebarNav.NavItems)
  {
    assert SidebarNav.NavItems[1].view == UploadFiles;
    assert SidebarNav.NavItems[2].view == RoAudit;
  }
}
