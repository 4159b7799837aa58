/** The maintenance gate (components/MaintenanceGate.tsx): a waitlist sign-up
    and a preview-password form shown instead of the app. */
module MaintenanceGateForm {
  import opened Common

  datatype EmailStatus = Idle | Success | Error | Loading

  datatype GateState = GateState(
    email: string,
    password: string,
    emailStatus: EmailStatus,
    emailMessage: Option<string>,
    passwordError: Option<string>)

  const Initial := GateState("", "", Idle, None, None)

  const EnterEmail := "Please enter an email."
  const AlreadyListed := "You are already on the list. Thanks for your interest!"
  const Listed := "Thanks! We will notify you when we open access."
  const SaveFailed := "Unable to save right now. Please try again soon."
  const WrongPassword := "Incorrect password. Please try again."

  /** The Postgres error code for a unique-key violation. */
  const UniqueViolation := "23505"

  /** Outcome of inserting into `waitlist_interest`; a thrown error carries no
      code. */
  datatype WaitlistOutcome = Saved | Rejected(code: Option<string>)

  /** The new gate state and the email inserted into the waitlist, if any. */
  datatype NotifyStep = NotifyStep(state: GateState, inserted: Option<string>)

  /** `handleNotify`: a blank email is refused locally; otherwise the email
      is inserted as typed, and a duplicate counts as a success. */
  function HandleNotify(st: GateState, outcome: WaitlistOutcome): (r: NotifyStep)
    ensures r.inserted.None? <==> IsBlank(st.email)
    ensures IsBlank(st.email) ==>
      r.state == st.(emailStatus := Error, emailMessage := Some(EnterEmail))
    ensures r.inserted.Some? ==> r.inserted.value == st.email
    ensures !IsBlank(st.email) ==>
      (r.state.emailStatus == Success <==>
         (outcome.Saved? || outcome == Rejected(Some(UniqueViolation))))
    ensures !IsBlank(st.email) && outcome.Saved? ==> r.state.emailMessage == Some(Listed)
    ensures !IsBlank(st.email) && outcome == Rejected(Some(UniqueViolation)) ==>
      r.state.emailMessage == Some(AlreadyListed)
    ensures !IsBlank(st.email) && outcome.Rejected? && outcome.code != Some(UniqueViolation) ==>
      r.state.emailMessage == Some(SaveFailed)
    ensures r.state.emailStatus in {Success, Error}
    ensures r.state.emailMessage.Some?
    ensures r.state.emailStatus == Success ==> r.state.email == ""
    ensures r.state.emailStatus == Error ==> r.state.email == st.email
    ensures r.state.password == st.password && r.state.passwordError == st.passwordError
  {
    if !Truthy(Trim(st.email)) then
      NotifyStep(st.(emailStatus := Error, emailMessage := Some(EnterEmail)), None)
    else
      var pending := st.(emailStatus := Loading, emailMessage := None);
      var next :=
        match outcome
        case Saved => pending.(emailStatus := Success, emailMessage := Some(Listed), email := "")
        case Rejected(code) =>
          if code == Some(UniqueViolation) then
            pending.(emailStatus := Success, emailMessage := Some(AlreadyListed), email := "")
          else
            pending.(emailStatus := Error, emailMessage := Some(SaveFailed));
      NotifyStep(next, Some(st.email))
  }

  /** A success clears the field, so submitting again straight away is
      refused locally and sends nothing; a failure keeps the field, so
      submitting again retries the same email. */
  lemma NotifyAgain(st: GateState, first: WaitlistOutcome, second: WaitlistOutcome)
    requires !IsBlank(st.email)
    ensures var after := HandleNotify(st, first).state;
      (after.emailStatus == Success ==>
         HandleNotify(after, second).inserted.None?
         && HandleNotify(after, second).state.emailMessage == Some(EnterEmail))
      && (after.emailStatus == Error ==> HandleNotify(after, second).inserted == Some(st.email))
  {
    var after := HandleNotify(st, first).state;
    if after.emailStatus == Success {
      assert after.email == "";
    }
  }

  /** The new gate state, whether `onUnlock` is called, and whether the
      bypass flag is written to local storage. */
  datatype UnlockStep = UnlockStep(state: GateState, unlock: bool, storeBypass: bool)

  /** `handleUnlock`: no preview password lets everyone in; otherwise the
      trimmed input must equal the preview password exactly. */
  function HandleUnlock(st: GateState, previewPassword: string): (r: UnlockStep)
    ensures r.unlock <==> previewPassword == [] || Trim(st.password) == previewPassword
    ensures previewPassword == [] ==> r.state == st && !r.storeBypass
    ensures previewPassword != [] && r.unlock ==>
      r.storeBypass && r.state == st.(passwordError := None)
    ensures !r.unlock ==>
      !r.storeBypass && r.state == st.(passwordError := Some(WrongPassword))
  {
    if !Truthy(previewPassword) then UnlockStep(st, true, false)
    else if Trim(st.password) == previewPassword then
      UnlockStep(st.(passwordError := None), true, true)
    else
      UnlockStep(st.(passwordError := Some(WrongPassword)), false, false)
  }

  /** The input is trimmed but the preview password is not: a preview
      password with whitespace at either end can never be typed in. */
  lemma PaddedPreviewNeverMatches(st: GateState, previewPassword: string)
    requires previewPassword != []
    requires IsWhitespace(previewPassword[0]) || IsWhitespace(previewPassword[|previewPassword| - 1])
    ensures !HandleUnlock(st, previewPassword).unlock
  {
    if IsWhitespace(previewPassword[0]) {
      LeadingPadIsNeverTrimmed(st.password, previewPassword);
    } else {
      TrailingPadIsNeverTrimmed(st.password, previewPassword);
    }
  }

  lemma LeadingPadIsNeverTrimmed(s: string, p: string)
    requires p != [] && IsWhitespace(p[0])
    ensures Trim(s) != p
  {
    TrimIsUnpadded(s);
    assert !Unpadded(p);
  }

  lemma TrailingPadIsNeverTrimmed(s: string, p: string)
    requires p != [] && IsWhitespace(p[|p| - 1])
    ensures Trim(s) != p
  {
    TrimIsUnpadded(s);
    assert !Unpadded(p);
  }

  /** Whitespace the visitor types before or after the password, in any
      amounts, never changes the decision. */
  lemma UnlockIgnoresPadding(st: GateState, previewPassword: string, before: string, after: string)
    requires IsBlank(before) && IsBlank(after)
    ensures HandleUnlock(st.(password := before + st.password + after), previewPassword)
         == HandleUnlock(st, previewPassword).(state := HandleUnlock(st, previewPassword).state.(password := before + st.password + after))
  {
    TrimIgnoresPadding(st.password, before, after);
  }

  lemma TrimIgnoresPadding(s: string, before: string, after: string)
    requires IsBlank(before) && IsBlank(after)
    ensures Trim(before + s + after) == Trim(s)
  {
    var padded := before + s + after;
    assert padded == before + (s + after);
    TrimStartIgnoresPadding(s + after, before);
    assert TrimStart(padded) == TrimStart(s + after);
    TrimStartAbsorbs(s, after);
    TrimEndIgnoresPadding(TrimStart(s), after);
    assert TrimEnd(TrimStart(padded)) == TrimEnd(TrimStart(s));
    TrimIsBothEnds(padded);
    TrimIsBothEnds(s);
  }

  lemma {:induction false} TrimStartIgnoresPadding(s: string, pad: string)
    requires IsBlank(pad)
    ensures TrimStart(pad + s) == TrimStart(s)
    decreases |pad|
  {
    if pad != [] {
      assert pad + s == [pad[0]] + (pad[1..] + s);
      TrimStartSkips(pad[0], pad[1..] + s);
      TrimStartIgnoresPadding(s, pad[1..]);
    } else {
      assert pad + s == s;
    }
  }

  /** One leading whitespace character is dropped. */
  lemma TrimStartSkips(c: char, s: string)
    requires IsWhitespace(c)
    ensures TrimStart([c] + s) == TrimStart(s)
  {
    assert ([c] + s)[1..] == s;
  }

  lemma {:induction false} TrimEndIgnoresPadding(s: string, pad: string)
    requires IsBlank(pad)
    ensures TrimEnd(s + pad) == TrimEnd(s)
    decreases |pad|
  {
    if pad != [] {
      var n := |pad|;
      var t := s + pad;
      assert t[|t| - 1] == pad[n - 1] && IsWhitespace(t[|t| - 1]);
      assert TrimEnd(t) == TrimEnd(t[..|t| - 1]);
      assert t[..|t| - 1] == s + pad[..n - 1];
      TrimEndIgnoresPadding(s, pad[..n - 1]);
    } else {
      assert s + pad == s;
    }
  }

  /** Trailing padding does not change where the leading whitespace ends,
      unless `s` is blank, in which case the padding is trimmed too. */
  lemma {:induction false} TrimStartAbsorbs(s: string, pad: string)
    requires IsBlank(pad)
    ensures TrimEnd(TrimStart(s + pad)) == TrimEnd(TrimStart(s) + pad)
    decreases |s|
  {
    var t := s + pad;
    if s == [] {
      assert t == pad;
      assert TrimStart(s) == [];
      assert TrimStart(s) + pad == pad;
    } else if IsWhitespace(s[0]) {
      assert t[0] == s[0];
      assert TrimStart(t) == TrimStart(t[1..]);
      assert t[1..] == s[1..] + pad;
      assert TrimStart(s) == TrimStart(s[1..]);
      TrimStartAbsorbs(s[1..], pad);
    } else {
      assert t[0] == s[0];
      assert TrimStart(t) == t;
      assert TrimStart(s) == s;
    }
  }
}
