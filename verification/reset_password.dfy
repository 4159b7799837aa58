/** Setting a new password with a mailed code (components/ResetPassword.tsx):
    the strength rules, the checks made before any request, the code lookup,
    and the "Try Again" reset. */
module ResetPasswordForm {
  import opened Common
  import ForgotPasswordForm

  const TooShort := "Password must be at least 8 characters long"
  const NoLowercase := "Password must contain at least one lowercase letter"
  const NoUppercase := "Password must contain at least one uppercase letter"
  const NoDigit := "Password must contain at least one number"
  const Mismatch := "Passwords do not match"
  const BadCode := "Invalid or expired reset code"
  const UpdateFallback := "Failed to update password"

  const MinLength := 8

  /** The character classes of the three regular expressions: `[a-z]`,
      `[A-Z]` and `\d`, all ASCII-only. */
  datatype CharClass = Lowercase | Uppercase | Digit

  predicate InClass(c: char, k: CharClass) {
    match k
    case Lowercase => 'a' <= c <= 'z'
    case Uppercase => 'A' <= c <= 'Z'
    case Digit => '0' <= c <= '9'
  }

  /** `/(?=.*[x])/.test(p)`: some character of `p` is in the class; the
      pattern is tried at every position, so a line break before the
      character does not hide it. */
  function Contains(p: string, k: CharClass): (b: bool)
    ensures b <==> exists i :: 0 <= i < |p| && InClass(p[i], k)
  {
    if p == [] then false
    else InClass(p[0], k) || (assert forall i :: 0 < i < |p| ==> p[i] == p[1..][i - 1]; Contains(p[1..], k))
  }

  /** The strength rules, independent of the order the messages are chosen in. */
  predicate IsStrong(p: string) {
    && Utf16Length(p) >= MinLength
    && (exists i :: 0 <= i < |p| && InClass(p[i], Lowercase))
    && (exists i :: 0 <= i < |p| && InClass(p[i], Uppercase))
    && (exists i :: 0 <= i < |p| && InClass(p[i], Digit))
  }

  /** `validatePassword`: null for a strong password, otherwise the message
      of the first rule broken, in the order length, lowercase, uppercase,
      digit. */
  function ValidatePassword(p: string): (r: Option<string>)
    ensures r.None? <==> IsStrong(p)
    ensures r == Some(TooShort) <==> Utf16Length(p) < MinLength
    ensures r == Some(NoLowercase) <==> Utf16Length(p) >= MinLength && !Contains(p, Lowercase)
    ensures r == Some(NoUppercase) <==>
      Utf16Length(p) >= MinLength && Contains(p, Lowercase) && !Contains(p, Uppercase)
    ensures r == Some(NoDigit) <==>
      Utf16Length(p) >= MinLength && Contains(p, Lowercase) && Contains(p, Uppercase) && !Contains(p, Digit)
  {
    if Utf16Length(p) < MinLength then Some(TooShort)
    else if !Contains(p, Lowercase) then Some(NoLowercase)
    else if !Contains(p, Uppercase) then Some(NoUppercase)
    else if !Contains(p, Digit) then Some(NoDigit)
    else None
  }

  datatype ResetState = ResetState(
    email: string,
    code: string,
    password: string,
    confirmPassword: string,
    loading: bool,
    error: Option<string>,
    success: bool,
    showPassword: bool,
    showConfirmPassword: bool)

  const Initial := ResetState("", "", "", "", false, None, false, false, false)

  /** The checks made before any request: strength first, then the match
      with the confirmation. */
  function PreCheck(st: ResetState): (err: Option<string>)
    ensures err.None? <==> IsStrong(st.password) && st.password == st.confirmPassword
    ensures !IsStrong(st.password) ==> err == ValidatePassword(st.password)
    ensures err == Some(Mismatch) <==> IsStrong(st.password) && st.password != st.confirmPassword
  {
    var weak := ValidatePassword(st.password);
    if weak.Some? then weak
    else if st.password != st.confirmPassword then Some(Mismatch)
    else None
  }

  /** The code lookup's result: exactly one row found, or an error. */
  datatype CodeLookup = CodeFound | CodeMissing

  /** The password-update function's result. */
  datatype UpdateOutcome = Updated | UpdateFailed(message: string)

  datatype Request = VerifyCode(email: string, code: string)
                   | UpdatePassword(email: string, code: string, newPassword: string)

  datatype ResetStep = ResetStep(state: ResetState, requests: seq<Request>)

  /** `handleResetPassword`, with the two backend answers as inputs. */
  function HandleResetPassword(st: ResetState, lookup: CodeLookup, update: UpdateOutcome): (r: ResetStep)
    ensures PreCheck(st).Some? ==> r.requests == [] && r.state == st.(error := PreCheck(st))
    ensures PreCheck(st).None? ==>
      !r.state.loading && |r.requests| >= 1 && r.requests[0] == VerifyCode(st.email, st.code)
    ensures lookup == CodeMissing && PreCheck(st).None? ==>
      r.state.error == Some(BadCode) && r.state.success == st.success && |r.requests| == 1
    ensures PreCheck(st).None? && lookup == CodeFound ==>
      r.requests == [VerifyCode(st.email, st.code), UpdatePassword(st.email, st.code, st.password)]
    ensures PreCheck(st).None? && lookup == CodeFound && update == Updated ==>
      r.state.success && r.state.error.None?
    ensures PreCheck(st).None? && lookup == CodeFound && update.UpdateFailed? ==>
      r.state.error == Some(OrElse(update.message, UpdateFallback)) && r.state.success == st.success
    ensures r.state.success != st.success ==>
      r.state.success && PreCheck(st).None? && lookup == CodeFound && update == Updated
    ensures r.requests == [] || r.requests == [VerifyCode(st.email, st.code)]
      || r.requests == [VerifyCode(st.email, st.code), UpdatePassword(st.email, st.code, st.password)]
    ensures r.state.error.Some? ==> Truthy(r.state.error.value)
    ensures r.state.email == st.email && r.state.code == st.code
    ensures r.state.password == st.password && r.state.confirmPassword == st.confirmPassword
    ensures r.state.showPassword == st.showPassword && r.state.showConfirmPassword == st.showConfirmPassword
  {
    var pre := PreCheck(st);
    if pre.Some? then ResetStep(st.(error := pre), [])
    else SendRequests(st, lookup, update)
  }

  /** The request phase, once the pre-check has passed: verify the code,
      then ask for the update; each failure ends the phase with its
      message. */
  function SendRequests(st: ResetState, lookup: CodeLookup, update: UpdateOutcome): (r: ResetStep)
    ensures !r.state.loading && |r.requests| >= 1 && r.requests[0] == VerifyCode(st.email, st.code)
    ensures lookup == CodeMissing ==>
      r.requests == [VerifyCode(st.email, st.code)]
      && r.state == st.(error := Some(BadCode), loading := false)
    ensures lookup == CodeFound ==>
      r.requests == [VerifyCode(st.email, st.code), UpdatePassword(st.email, st.code, st.password)]
    ensures lookup == CodeFound && update == Updated ==>
      r.state == st.(error := None, success := true, loading := false)
    ensures lookup == CodeFound && update.UpdateFailed? ==>
      r.state == st.(error := Some(OrElse(update.message, UpdateFallback)), loading := false)
  {
    var pending := st.(error := None, loading := true);
    var verify := VerifyCode(st.email, st.code);
    match lookup
    case CodeMissing => ResetStep(pending.(error := Some(BadCode), loading := false), [verify])
    case CodeFound =>
      var requests := [verify, UpdatePassword(st.email, st.code, st.password)];
      match update
      case Updated => ResetStep(pending.(success := true, loading := false), requests)
      case UpdateFailed(message) =>
        ResetStep(pending.(error := Some(OrElse(message, UpdateFallback)), loading := false), requests)
  }

  /** The length rule counts UTF-16 units, so seven characters of which one
      lies above U+FFFF (an emoji, say) already meet the minimum. */
  lemma SevenCharactersWithAnEmojiAreLongEnough(p: string)
    requires |p| == MinLength - 1
    requires exists i :: 0 <= i < |p| && p[i] as int > 0xFFFF
    ensures ValidatePassword(p) != Some(TooShort)
  {
  }

  /** "Passwords do not match" is only ever reported for a strong password,
      and then no request is made. */
  lemma MismatchOnlyForStrongPassword(st: ResetState, lookup: CodeLookup, update: UpdateOutcome)
    requires HandleResetPassword(st, lookup, update).requests == []
    requires HandleResetPassword(st, lookup, update).state.error == Some(Mismatch)
    ensures ValidatePassword(st.password).None? && st.password != st.confirmPassword
  {
  }

  /** "Try Again" on the success screen: back to an empty form. */
  function TryAgain(st: ResetState): (r: ResetState)
    ensures !r.success
    ensures r.email == "" && r.code == "" && r.password == "" && r.confirmPassword == ""
    ensures r.loading == st.loading && r.error == st.error
    ensures r.showPassword == st.showPassword && r.showConfirmPassword == st.showConfirmPassword
  {
    st.(success := false, email := "", code := "", password := "", confirmPassword := "")
  }

  /** "Try Again" gives back the initial form, keeping only the loading
      flag, the error and the two visibility toggles; submitting it straight
      away is refused by the length rule and sends nothing. */
  lemma TryAgainRestartsForm(st: ResetState, lookup: CodeLookup, update: UpdateOutcome)
    ensures TryAgain(st) == Initial.(loading := st.loading, error := st.error,
                                     showPassword := st.showPassword,
                                     showConfirmPassword := st.showConfirmPassword)
    ensures HandleResetPassword(TryAgain(st), lookup, update).requests == []
    ensures HandleResetPassword(TryAgain(st), lookup, update).state.error == Some(TooShort)
  {
    assert Utf16Length(TryAgain(st).password) == 0;
  }

  /** A row of `reset_codes` as the lookup sees it. */
  datatype StoredCode = StoredCode(email: string, code: string, expiresAt: int, used: bool)

  /** The lookup's filters: this email and code, unused, not yet expired. */
  predicate Matches(row: StoredCode, email: string, code: string, nowMs: int) {
    row.email == email && row.code == code && !row.used && row.expiresAt > nowMs
  }

  function MatchCount(rows: seq<StoredCode>, email: string, code: string, nowMs: int): nat {
    if rows == [] then 0
    else (if Matches(rows[0], email, code, nowMs) then 1 else 0) + MatchCount(rows[1..], email, code, nowMs)
  }

  /** How many rows carry this email and code, used or not. */
  function KeyCount(rows: seq<StoredCode>, email: string, code: string): nat {
    if rows == [] then 0
    else (if rows[0].email == email && rows[0].code == code then 1 else 0) + KeyCount(rows[1..], email, code)
  }

  /** The filtered query ended by `.single()`: found only when exactly one
      row passes every filter. */
  function LookupCode(rows: seq<StoredCode>, email: string, code: string, nowMs: int): (r: CodeLookup)
    ensures r == CodeFound <==> MatchCount(rows, email, code, nowMs) == 1
  {
    if MatchCount(rows, email, code, nowMs) == 1 then CodeFound else CodeMissing
  }

  lemma {:induction false} NoKeyNoMatch(rows: seq<StoredCode>, email: string, code: string, nowMs: int)
    requires KeyCount(rows, email, code) == 0
    ensures MatchCount(rows, email, code, nowMs) == 0
    decreases |rows|
  {
    if rows != [] {
      NoKeyNoMatch(rows[1..], email, code, nowMs);
    }
  }

  lemma {:induction false} MemberIsCounted(rows: seq<StoredCode>, row: StoredCode)
    requires row in rows
    ensures KeyCount(rows, row.email, row.code) >= 1
    decreases |rows|
  {
    if rows[0] != row {
      assert row in rows[1..];
      MemberIsCounted(rows[1..], row);
    }
  }

  /** With a single row for an email and code, the lookup finds that row
      exactly while it passes the filters. */
  lemma {:induction false} UniqueKeyLookup(rows: seq<StoredCode>, row: StoredCode, nowMs: int)
    requires row in rows
    requires KeyCount(rows, row.email, row.code) == 1
    ensures MatchCount(rows, row.email, row.code, nowMs) == (if Matches(row, row.email, row.code, nowMs) then 1 else 0)
    decreases |rows|
  {
    var rest := rows[1..];
    if rows[0].email == row.email && rows[0].code == row.code {
      if rows[0] != row {
        assert row in rest;
        MemberIsCounted(rest, row);
        assert false;
      }
      NoKeyNoMatch(rest, row.email, row.code, nowMs);
    } else {
      assert row in rest;
      UniqueKeyLookup(rest, row, nowMs);
    }
  }

  /** A code issued by the forgot-password form and still unused is accepted
      for that email exactly until it expires, fifteen minutes after it was
      issued, provided no other row repeats its email and code. */
  lemma IssuedCodeAcceptedUntilExpiry(st: ForgotPasswordForm.ForgotState, random: real, issuedMs: int,
                                      email: ForgotPasswordForm.EmailOutcome,
                                      rows: seq<StoredCode>, nowMs: int)
    requires 0.0 <= random < 1.0
    requires var row := IssueCode(st, random, issuedMs, email).row;
      StoredCode(row.email, row.code, row.expiresAt, false) in rows
      && KeyCount(rows, row.email, row.code) == 1
    ensures var row := IssueCode(st, random, issuedMs, email).row;
      (LookupCode(rows, st.email, row.code, nowMs) == CodeFound <==>
         nowMs < issuedMs + ForgotPasswordForm.CodeLifetimeMs)
  {
    var row := IssueCode(st, random, issuedMs, email).row;
    UniqueKeyLookup(rows, StoredCode(row.email, row.code, row.expiresAt, false), nowMs);
  }

  /** The forgot-password step whose insert succeeded. */
  function IssueCode(st: ForgotPasswordForm.ForgotState, random: real, issuedMs: int,
                                email: ForgotPasswordForm.EmailOutcome): ForgotPasswordForm.ForgotStep
    requires 0.0 <= random < 1.0
  {
    ForgotPasswordForm.HandleForgotPassword(st, random, issuedMs, ForgotPasswordForm.Inserted, email)
  }
}
