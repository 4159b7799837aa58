/** The shop settings page (components/ShopSettings.tsx): the two
    integration forms, the shop-name form, the API-key visibility toggles
    and the subscription label. */
module ShopSettingsForm {
  import opened Common
  import opened Records
  import DashboardView

  datatype Provider = PartsTech | Tekmetric

  /** The `provider_name` column value. */
  function ProviderName(p: Provider): string {
    match p
    case PartsTech => "partstech"
    case Tekmetric => "tekmetric"
  }

  /** The name shown in messages. */
  function ProviderLabel(p: Provider): string {
    match p
    case PartsTech => "PartsTech"
    case Tekmetric => "Tekmetric"
  }

  /** The error-map key for a provider's field, such as "partstech_api_key". */
  function ErrorKey(p: Provider, field: string): string {
    ProviderName(p) + "_" + field
  }

  /** A row of the `integrations` table. */
  datatype Integration = Integration(id: string, providerName: string, apiKey: string,
                                     storeId: Option<string>, status: string)

  /** One provider's form; `isNew` until a stored integration is loaded. */
  datatype IntegrationForm = IntegrationForm(apiKey: string, storeId: string, isNew: bool)

  const EmptyForm := IntegrationForm("", "", true)

  datatype Settings = Settings(
    shop: Option<ShopInfo>,
    integrations: seq<Integration>,
    partsTech: IntegrationForm,
    tekmetric: IntegrationForm,
    shopName: string,
    saving: bool,
    showApiKeys: map<string, bool>,
    errors: map<string, string>,
    successMessage: string)

  function FormOf(st: Settings, p: Provider): IntegrationForm {
    match p
    case PartsTech => st.partsTech
    case Tekmetric => st.tekmetric
  }

  function WithForm(st: Settings, p: Provider, f: IntegrationForm): (r: Settings)
    ensures FormOf(r, p) == f
    ensures forall q :: q != p ==> FormOf(r, q) == FormOf(st, q)
    ensures r.(partsTech := st.partsTech, tekmetric := st.tekmetric) == st
  {
    match p
    case PartsTech => st.(partsTech := f)
    case Tekmetric => st.(tekmetric := f)
  }

  /** `integrations.find(i => i.provider_name === name)`: the first row for
      that provider, if any. */
  function FindIntegration(xs: seq<Integration>, name: string): (r: Option<Integration>)
    ensures r.None? <==> forall i :: 0 <= i < |xs| ==> xs[i].providerName != name
    ensures r.Some? ==> r.value.providerName == name
    ensures r.Some? ==>
      exists k :: (0 <= k < |xs| && xs[k] == r.value
                   && forall j :: 0 <= j < k ==> xs[j].providerName != name)
  {
    if xs == [] then None
    else if xs[0].providerName == name then Some(xs[0])
    else
      var r := FindIntegration(xs[1..], name);
      assert forall i :: 0 < i < |xs| ==> xs[i] == xs[1..][i - 1];
      if r.Some? then
        var k :| 0 <= k < |xs[1..]| && xs[1..][k] == r.value && r.value.providerName == name
          && forall j :: 0 <= j < k ==> xs[1..][j].providerName != name;
        assert xs[k + 1] == r.value;
        r
      else r
  }

  /** The write sent to the backend. */
  datatype Write =
    | InsertRow(shopId: string, providerName: string, apiKey: string,
                        storeId: Option<string>, status: string)
    | UpdateRow(id: string, apiKey: string, storeId: Option<string>)
    | DeleteRow(id: string)
    | RenameShop(target: Option<string>, name: string)

  /** The page after a handler, the write it made, and whether it reloads
      the data afterwards. */
  datatype SettingsStep = SettingsStep(state: Settings, write: Option<Write>, refresh: bool)

  /** The fields only data loading changes; every handler keeps them. */
  predicate SameData(a: Settings, b: Settings) {
    a.shop == b.shop && a.integrations == b.integrations && a.shopName == b.shopName
    && a.showApiKeys == b.showApiKeys
  }

  /** `saveIntegration`: a blank key is refused; a new form inserts an
      active integration; a stored one is updated by id. */
  function SaveIntegration(st: Settings, p: Provider, shopId: Option<string>, outcome: WriteOutcome): (r: SettingsStep)
    ensures SameData(r.state, st)
    ensures FormOf(r.state, PartsTech) == FormOf(st, PartsTech) && FormOf(r.state, Tekmetric) == FormOf(st, Tekmetric)
    ensures IsBlank(FormOf(st, p).apiKey) ==>
      r.write.None? && !r.refresh
      && r.state == st.(errors := map[ErrorKey(p, "api_key") := "API Key is required"])
    ensures !IsBlank(FormOf(st, p).apiKey) ==> !r.state.saving
    ensures !IsBlank(FormOf(st, p).apiKey) && !PresentTruthy(shopId) ==>
      r.write.None? && !r.refresh && r.state.errors == map[] && r.state.successMessage == ""
    ensures r.write.Some? && r.write.value.InsertRow? ==>
      FormOf(st, p).isNew && shopId == Some(r.write.value.shopId)
      && r.write.value == InsertRow(r.write.value.shopId, ProviderName(p), FormOf(st, p).apiKey,
                                            EmptyToNull(FormOf(st, p).storeId), "active")
    ensures r.write.Some? && r.write.value.UpdateRow? ==>
      !FormOf(st, p).isNew
      && FindIntegration(st.integrations, ProviderName(p)).Some?
      && r.write.value == UpdateRow(FindIntegration(st.integrations, ProviderName(p)).value.id,
                                            FormOf(st, p).apiKey, EmptyToNull(FormOf(st, p).storeId))
    ensures r.write.Some? ==> r.write.value.InsertRow? || r.write.value.UpdateRow?
    ensures !IsBlank(FormOf(st, p).apiKey) && PresentTruthy(shopId) && FormOf(st, p).isNew ==>
      r.write == Some(InsertRow(shopId.value, ProviderName(p), FormOf(st, p).apiKey,
                                EmptyToNull(FormOf(st, p).storeId), "active"))
    ensures !IsBlank(FormOf(st, p).apiKey) && PresentTruthy(shopId) && !FormOf(st, p).isNew
            && FindIntegration(st.integrations, ProviderName(p)).Some? ==>
      r.write == Some(UpdateRow(FindIntegration(st.integrations, ProviderName(p)).value.id,
                                FormOf(st, p).apiKey, EmptyToNull(FormOf(st, p).storeId)))
    ensures !IsBlank(FormOf(st, p).apiKey) && PresentTruthy(shopId) && !FormOf(st, p).isNew
            && FindIntegration(st.integrations, ProviderName(p)).None? ==>
      r.write.None?
    ensures r.write.Some? && outcome.WriteFailed? ==>
      !r.refresh && r.state.successMessage == ""
      && r.state.errors == map[ErrorKey(p, "general") := OrElse(outcome.message, "Failed to save integration")]
    ensures !IsBlank(FormOf(st, p).apiKey) && PresentTruthy(shopId) && (r.write.None? || outcome.Written?) ==>
      r.refresh && r.state.errors == map[]
      && r.state.successMessage == ProviderLabel(p) + " integration saved successfully!"
    ensures !IsBlank(FormOf(st, p).apiKey) ==> (r.refresh <==> r.state.successMessage != "")
    ensures r.state.errors != map[] && !IsBlank(FormOf(st, p).apiKey) ==>
      r.write.Some? && outcome.WriteFailed?
      && r.state.errors == map[ErrorKey(p, "general") := OrElse(outcome.message, "Failed to save integration")]
  {
    var form := FormOf(st, p);
    if !Truthy(Trim(form.apiKey)) then
      SettingsStep(st.(errors := map[ErrorKey(p, "api_key") := "API Key is required"]), None, false)
    else
      var pending := st.(saving := true, errors := map[], successMessage := "");
      if !PresentTruthy(shopId) then SettingsStep(pending.(saving := false), None, false)
      else
        var write := IntegrationWrite(st, p, shopId.value);
        if write.Some? && outcome.WriteFailed? then
          SettingsStep(pending.(saving := false,
                                errors := map[ErrorKey(p, "general") := OrElse(outcome.message, "Failed to save integration")]),
                       write, false)
        else
          SettingsStep(pending.(saving := false,
                                successMessage := ProviderLabel(p) + " integration saved successfully!"),
                       write, true)
  }

  /** The write `saveIntegration` makes once the key and the shop id are
      known: an insert of an active row for a new form, an update of the
      first stored row for a loaded one, and nothing when a loaded form has
      no stored row. */
  function IntegrationWrite(st: Settings, p: Provider, shopId: string): (w: Option<Write>)
    ensures FormOf(st, p).isNew ==>
      w == Some(InsertRow(shopId, ProviderName(p), FormOf(st, p).apiKey, EmptyToNull(FormOf(st, p).storeId), "active"))
    ensures !FormOf(st, p).isNew && FindIntegration(st.integrations, ProviderName(p)).Some? ==>
      w == Some(UpdateRow(FindIntegration(st.integrations, ProviderName(p)).value.id,
                          FormOf(st, p).apiKey, EmptyToNull(FormOf(st, p).storeId)))
    ensures !FormOf(st, p).isNew && FindIntegration(st.integrations, ProviderName(p)).None? ==> w.None?
  {
    var form := FormOf(st, p);
    if form.isNew then
      Some(InsertRow(shopId, ProviderName(p), form.apiKey, EmptyToNull(form.storeId), "active"))
    else
      var existing := FindIntegration(st.integrations, ProviderName(p));
      if existing.Some? then Some(UpdateRow(existing.value.id, form.apiKey, EmptyToNull(form.storeId)))
      else None
  }

  /** `deleteIntegration`, with the confirmation dialog's answer as input. */
  function DeleteIntegration(st: Settings, p: Provider, confirmed: bool, outcome: WriteOutcome): (r: SettingsStep)
    ensures SameData(r.state, st)
    ensures FindIntegration(st.integrations, ProviderName(p)).None? || !confirmed ==>
      r.state == st && r.write.None? && !r.refresh
    ensures r.write.Some? ==>
      r.write.value == DeleteRow(FindIntegration(st.integrations, ProviderName(p)).value.id) && !r.state.saving
    ensures FindIntegration(st.integrations, ProviderName(p)).Some? && confirmed ==>
      r.write == Some(DeleteRow(FindIntegration(st.integrations, ProviderName(p)).value.id))
    ensures r.write.Some? && outcome.Written? ==>
      FormOf(r.state, p) == EmptyForm && r.refresh && r.state.errors == st.errors
      && r.state.successMessage == ProviderLabel(p) + " integration removed successfully!"
    ensures r.write.Some? && outcome.WriteFailed? ==>
      FormOf(r.state, p) == FormOf(st, p) && !r.refresh && r.state.successMessage == st.successMessage
      && r.state.errors == map[ErrorKey(p, "general") := OrElse(outcome.message, "Failed to delete integration")]
    ensures forall q :: q != p ==> FormOf(r.state, q) == FormOf(st, q)
  {
    var existing := FindIntegration(st.integrations, ProviderName(p));
    if existing.None? || !confirmed then SettingsStep(st, None, false)
    else
      var write := Some(DeleteRow(existing.value.id));
      var settled := st.(saving := false);
      match outcome
      case WriteFailed(message) =>
        SettingsStep(settled.(errors := map[ErrorKey(p, "general") := OrElse(message, "Failed to delete integration")]),
                     write, false)
      case Written =>
        var done := settled.(successMessage := ProviderLabel(p) + " integration removed successfully!");
        SettingsStep(WithForm(done, p, EmptyForm), write, true)
  }

  /** `saveShopInfo`: a blank name is refused; otherwise the name, as typed,
      is written to the loaded shop. */
  function SaveShopInfo(st: Settings, outcome: WriteOutcome): (r: SettingsStep)
    ensures SameData(r.state, st)
    ensures r.state.partsTech == st.partsTech && r.state.tekmetric == st.tekmetric
    ensures IsBlank(st.shopName) ==>
      r.write.None? && !r.refresh && r.state == st.(errors := map["shop_name" := "Shop name is required"])
    ensures !IsBlank(st.shopName) ==>
      !r.state.saving
      && r.write == Some(RenameShop(if st.shop.Some? then Some(st.shop.value.id) else None, st.shopName))
    ensures !IsBlank(st.shopName) && outcome.Written? ==>
      r.refresh && r.state.errors == map[] && r.state.successMessage == "Shop information updated successfully!"
    ensures !IsBlank(st.shopName) && outcome.WriteFailed? ==>
      !r.refresh && r.state.successMessage == ""
      && r.state.errors == map["shop_general" := OrElse(outcome.message, "Failed to update shop information")]
  {
    if !Truthy(Trim(st.shopName)) then
      SettingsStep(st.(errors := map["shop_name" := "Shop name is required"]), None, false)
    else
      var pending := st.(saving := true, errors := map[], successMessage := "");
      var write := Some(RenameShop(if st.shop.Some? then Some(st.shop.value.id) else None, st.shopName));
      match outcome
      case Written =>
        SettingsStep(pending.(saving := false, successMessage := "Shop information updated successfully!"), write, true)
      case WriteFailed(message) =>
        SettingsStep(pending.(saving := false,
                              errors := map["shop_general" := OrElse(message, "Failed to update shop information")]),
                     write, false)
  }

  /** The form a loaded row fills in. */
  function FormFromRow(row: Integration): IntegrationForm {
    IntegrationForm(row.apiKey, NullToEmpty(row.storeId), false)
  }

  /** The second half of `fetchIntegrations`: keep the rows, and fill in the
      form of each provider that has one; a provider without a row keeps its
      form. */
  function LoadIntegrations(st: Settings, rows: seq<Integration>): (r: Settings)
    ensures r.integrations == rows
    ensures r.(integrations := st.integrations, partsTech := st.partsTech, tekmetric := st.tekmetric) == st
    ensures forall p :: FindIntegration(rows, ProviderName(p)).Some? ==>
      FormOf(r, p) == FormFromRow(FindIntegration(rows, ProviderName(p)).value)
    ensures forall p :: FindIntegration(rows, ProviderName(p)).None? ==> FormOf(r, p) == FormOf(st, p)
  {
    var partsTech := FindIntegration(rows, ProviderName(PartsTech));
    var tekmetric := FindIntegration(rows, ProviderName(Tekmetric));
    st.(integrations := rows,
        partsTech := if partsTech.Some? then FormFromRow(partsTech.value) else st.partsTech,
        tekmetric := if tekmetric.Some? then FormFromRow(tekmetric.value) else st.tekmetric)
  }

  /** Connecting a provider and reloading the row it inserted gives the same
      form back, now marked as stored. */
  lemma SavedIntegrationReloads(st: Settings, p: Provider, shopId: Option<string>, id: string,
                                others: seq<Integration>)
    requires FormOf(st, p).isNew && !IsBlank(FormOf(st, p).apiKey) && PresentTruthy(shopId)
    requires forall i :: 0 <= i < |others| ==> others[i].providerName != ProviderName(p)
    ensures var step := SaveIntegration(st, p, shopId, Written);
      var w := step.write.value;
      var stored := Integration(id, w.providerName, w.apiKey, w.storeId, w.status);
      FormOf(LoadIntegrations(step.state, [stored] + others), p)
        == FormOf(st, p).(isNew := false)
  {
  }

  /** Removing a provider and reloading rows that no longer hold it leaves
      that provider's form empty and ready for a new integration. */
  lemma DeletedIntegrationStaysCleared(st: Settings, p: Provider, rows: seq<Integration>)
    requires FindIntegration(st.integrations, ProviderName(p)).Some?
    requires forall i :: 0 <= i < |rows| ==> rows[i].providerName != ProviderName(p)
    ensures var step := DeleteIntegration(st, p, true, Written);
      step.refresh && FormOf(LoadIntegrations(step.state, rows), p) == EmptyForm
  {
  }

  /** `fetchShopData` once the shop row is read: a row replaces the shop and
      the name field; no row changes nothing. */
  function LoadShop(st: Settings, row: Option<ShopInfo>): (r: Settings)
    ensures row.Some? ==> r.shop == row && r.shopName == row.value.name
    ensures row.None? ==> r == st
    ensures r.(shop := st.shop, shopName := st.shopName) == st
  {
    if row.Some? then st.(shop := row, shopName := row.value.name) else st
  }

  /** Renaming the shop and reloading the renamed row keeps the typed name
      in the field, and the row read back is the one the write targeted. */
  lemma RenamedShopReloads(st: Settings)
    requires st.shop.Some? && !IsBlank(st.shopName)
    ensures var step := SaveShopInfo(st, Written);
      var renamed := st.shop.value.(name := step.write.value.name);
      step.refresh
      && step.write.value.target == Some(renamed.id)
      && LoadShop(step.state, Some(renamed)).shopName == st.shopName
      && LoadShop(step.state, Some(renamed)).shop == Some(renamed)
  {
  }

  /** `showApiKeys[provider]`, where a missing entry is hidden. */
  predicate Visible(m: map<string, bool>, key: string) {
    key in m && m[key]
  }

  /** `toggleApiKeyVisibility`: flips one provider's flag and no other. */
  function ToggleApiKeyVisibility(m: map<string, bool>, key: string): (r: map<string, bool>)
    ensures r.Keys == m.Keys + {key}
    ensures Visible(r, key) == !Visible(m, key)
    ensures forall k :: k != key ==> Visible(r, k) == Visible(m, k)
    ensures forall k :: k in m && k != key ==> r[k] == m[k]
  {
    m[key := !Visible(m, key)]
  }

  /** Two toggles restore what is shown, though a missing entry becomes an
      explicit `false`. */
  lemma ToggleTwiceRestoresVisibility(m: map<string, bool>, key: string, other: string)
    ensures Visible(ToggleApiKeyVisibility(ToggleApiKeyVisibility(m, key), key), other) == Visible(m, other)
  {
  }

  /** The subscription label under the shop name. */
  function StatusLabel(shop: Option<ShopInfo>): (text: string)
    ensures text == "Active" <==> IsActive(shop)
    ensures text == "Past Due" <==> shop.Some? && shop.value.subscriptionStatus == Some("past_due")
    ensures text in {"Active", "Past Due", "Free Tier"}
  {
    if shop.Some? && shop.value.subscriptionStatus == Some("active") then "Active"
    else if shop.Some? && shop.value.subscriptionStatus == Some("past_due") then "Past Due"
    else "Free Tier"
  }

  /** The settings page's sidebar heading. */
  function HeadingName(shop: Option<ShopInfo>): (name: string)
    ensures Truthy(name)
    ensures shop.Some? && Truthy(shop.value.name) ==> name == shop.value.name
    ensures name != "My Shop" ==> shop.Some? && shop.value.name == name
  {
    if shop.Some? then OrElse(shop.value.name, "My Shop") else "My Shop"
  }

  /** The settings page shows the same heading the dashboard shows for a
      user without a sign-up shop name. */
  lemma HeadingMatchesDashboard(shop: Option<ShopInfo>, session: Option<Session>)
    requires session.None? || !PresentTruthy(session.value.metadata.shopName)
    ensures HeadingName(shop) == DashboardView.HeadingName(shop, session)
  {
  }
}
