/** The feedback page (components/Feedback.tsx): the draft, its validity,
    and the submission. */
module FeedbackForm {
  import opened Common
  import opened Records

  datatype FeedbackType = Bug | Feature | Analytics | Question | Other

  /** The `type` column value. */
  function TypeName(t: FeedbackType): string {
    match t
    case Bug => "bug"
    case Feature => "feature"
    case Analytics => "analytics"
    case Question => "question"
    case Other => "other"
  }

  datatype Draft = Draft(kind: FeedbackType, title: string, description: string)

  const EmptyDraft := Draft(Bug, "", "")

  datatype SubmitStatus = Idle | Sent | Failed

  datatype FeedbackState = FeedbackState(draft: Draft, isSubmitting: bool, status: SubmitStatus)

  const Initial := FeedbackState(EmptyDraft, false, Idle)

  /** One edit, naming the field it changes. */
  datatype Change = SetKind(kind: FeedbackType) | SetTitle(title: string) | SetDescription(description: string)

  /** `handleInputChange`: the named field takes the new value; the others
      keep theirs. */
  function HandleInputChange(d: Draft, c: Change): (r: Draft)
    ensures c.SetKind? ==> r.kind == c.kind && r.title == d.title && r.description == d.description
    ensures c.SetTitle? ==> r.title == c.title && r.kind == d.kind && r.description == d.description
    ensures c.SetDescription? ==>
      r.description == c.description && r.kind == d.kind && r.title == d.title
  {
    match c
    case SetKind(k) => d.(kind := k)
    case SetTitle(t) => d.(title := t)
    case SetDescription(s) => d.(description := s)
  }

  /** `isFormValid`: both the title and the description hold something
      besides whitespace. */
  function IsFormValid(d: Draft): (valid: bool)
    ensures valid <==> !IsBlank(d.title) && !IsBlank(d.description)
  {
    Truthy(Trim(d.title)) && Truthy(Trim(d.description))
  }

  /** The row inserted into `feedback`. */
  datatype FeedbackRow = FeedbackRow(shopId: string, userId: string, kind: string,
                                     title: string, description: string)

  datatype InsertOutcome = Inserted | InsertFailed

  datatype SubmitStep = SubmitStep(state: FeedbackState, inserted: Option<FeedbackRow>)

  /** `handleSubmit`: without a signed-in user and a loaded shop nothing is
      sent; otherwise the trimmed draft is inserted, and a success clears it. */
  function HandleSubmit(st: FeedbackState, session: Option<Session>, shop: Option<ShopInfo>,
                        outcome: InsertOutcome): (r: SubmitStep)
    ensures r.inserted.None? <==> !HasUserId(session) || !HasShopId(shop)
    ensures r.inserted.None? ==> r.state == st.(status := Failed)
    ensures r.inserted.Some? ==>
      r.inserted.value.shopId == shop.value.id
      && r.inserted.value.userId == session.value.userId.value
      && r.inserted.value.kind == TypeName(st.draft.kind)
      && r.inserted.value.title == Trim(st.draft.title)
      && r.inserted.value.description == Trim(st.draft.description)
    ensures r.inserted.Some? ==> !r.state.isSubmitting
    ensures r.inserted.Some? && outcome == Inserted ==> r.state.status == Sent && r.state.draft == EmptyDraft
    ensures r.inserted.Some? && outcome == InsertFailed ==> r.state.status == Failed && r.state.draft == st.draft
    ensures r.state.status != Idle
  {
    if !HasUserId(session) || !HasShopId(shop) then
      SubmitStep(st.(status := Failed), None)
    else
      var pending := st.(isSubmitting := true, status := Idle);
      var row := FeedbackRow(shop.value.id, session.value.userId.value, TypeName(st.draft.kind),
                             Trim(st.draft.title), Trim(st.draft.description));
      match outcome
      case Inserted => SubmitStep(pending.(status := Sent, draft := EmptyDraft, isSubmitting := false), Some(row))
      case InsertFailed => SubmitStep(pending.(status := Failed, isSubmitting := false), Some(row))
  }

  /** Non-empty, and neither starting nor ending with whitespace. */
  predicate CleanText(s: string) {
    s != [] && Unpadded(s)
  }

  /** A valid draft sends a title and a description that are non-empty and
      carry no surrounding whitespace. */
  lemma ValidDraftSendsCleanText(st: FeedbackState, session: Option<Session>, shop: Option<ShopInfo>,
                                 outcome: InsertOutcome)
    requires !IsBlank(st.draft.title) && !IsBlank(st.draft.description)
    requires HasUserId(session) && HasShopId(shop)
    ensures HandleSubmit(st, session, shop, outcome).inserted.Some?
    ensures CleanText(HandleSubmit(st, session, shop, outcome).inserted.value.title)
    ensures CleanText(HandleSubmit(st, session, shop, outcome).inserted.value.description)
  {
    TrimmedTextIsClean(st.draft.title);
    TrimmedTextIsClean(st.draft.description);
  }

  lemma TrimmedTextIsClean(s: string)
    requires !IsBlank(s)
    ensures CleanText(Trim(s))
  {
    TrimIsUnpadded(s);
  }
}
