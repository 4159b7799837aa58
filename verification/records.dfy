/** The records the front end receives from its hosted backend: the signed-in
    session and the shop profile (`ShopInfo` in lib/billing.ts). */
module Records {
  import opened Common

  /** `session.user.user_metadata`, filled in at sign-up. */
  datatype UserMetadata = UserMetadata(firstName: Option<string>, shopName: Option<string>)

  /** A session as the components look at it: the user id and the metadata. */
  datatype Session = Session(userId: Option<string>, metadata: UserMetadata)

  /** One row of the `shops` table. */
  datatype ShopInfo = ShopInfo(
    id: string,
    name: string,
    subscriptionStatus: Option<string>,
    freeCreditsRemaining: Option<int>)

  /** `session?.user?.id` used as a condition. */
  predicate HasUserId(session: Option<Session>) {
    session.Some? && PresentTruthy(session.value.userId)
  }

  /** `shop?.id` used as a condition. */
  predicate HasShopId(shop: Option<ShopInfo>) {
    shop.Some? && Truthy(shop.value.id)
  }

  /** `shop?.subscription_status === 'active'`, the test both the dashboard
      and the settings page use to decide whether the subscription is live. */
  predicate IsActive(shop: Option<ShopInfo>) {
    shop.Some? && shop.value.subscriptionStatus == Some("active")
  }

  /** Outcome of a row write (insert, update or delete) in the backend. */
  datatype WriteOutcome = Written | WriteFailed(message: string)
}
