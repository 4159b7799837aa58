/** Requesting a reset code (components/ForgotPassword.tsx): a random
    six-digit code, stored with a fifteen-minute expiry, then mailed. */
module ForgotPasswordForm {
  import opened Common
  import opened Views

  /** The code's numeric value: `Math.floor(100000 + random * 900000)` for a
      `Math.random()` draw in [0, 1). */
  function ResetCodeValue(random: real): (n: nat)
    requires 0.0 <= random < 1.0
    ensures 100000 <= n <= 999999
  {
    (100000.0 + random * 900000.0).Floor
  }

  /** `generateResetCode`: the value's decimal text, exactly six digits. */
  function GenerateResetCode(random: real): (code: string)
    requires 0.0 <= random < 1.0
    ensures |code| == 6
    ensures forall i :: 0 <= i < |code| ==> IsDigit(code[i])
    ensures ParseDecimal(code) == ResetCodeValue(random)
    ensures code[0] != '0'
  {
    var n := ResetCodeValue(random);
    SixDigitRendering(n);
    ParseDecimalString(n);
    DecimalString(n)
  }

  /** Fifteen minutes, in the milliseconds time is counted in. */
  const CodeLifetimeMs: int := 15 * 60 * 1000

  /** Delay before the success screen moves on to the reset form. */
  const RedirectDelayMs: int := 3000

  datatype ForgotState = ForgotState(email: string, loading: bool, error: Option<string>, success: bool)

  const Initial := ForgotState("", false, None, false)

  /** The row written to `reset_codes`. */
  datatype ResetCodeRow = ResetCodeRow(email: string, code: string, expiresAt: int)

  datatype InsertOutcome = Inserted | InsertFailed(message: string)

  /** The reset-email function's answer; it is logged and otherwise ignored. */
  datatype EmailOutcome = EmailSent | EmailFailed

  /** A switch to `view` that a timer performs after `delayMs`. */
  datatype Redirect = Redirect(view: ViewState, delayMs: int)

  /** The new state, the row written, whether the email was requested, and
      the timed redirect, if any. */
  datatype ForgotStep = ForgotStep(
    state: ForgotState,
    row: ResetCodeRow,
    emailRequested: bool,
    redirect: Option<Redirect>)

  /** `handleForgotPassword`, with the clock and the random draw as inputs. */
  function HandleForgotPassword(st: ForgotState, random: real, nowMs: int,
                                insert: InsertOutcome, email: EmailOutcome): (r: ForgotStep)
    requires 0.0 <= random < 1.0
    ensures r.row.email == st.email
    ensures |r.row.code| == 6 && r.row.code == GenerateResetCode(random)
    ensures r.row.expiresAt - nowMs == CodeLifetimeMs
    ensures !r.state.loading && r.state.email == st.email
    ensures insert.InsertFailed? ==>
      r.state.error == Some(insert.message) && r.state.success == st.success
      && r.redirect.None? && !r.emailRequested
    ensures insert.Inserted? ==>
      r.state.success && r.state.error.None? && r.emailRequested && r.redirect == Some(Redirect(ResetPassword, 3000))
  {
    var pending := st.(loading := true, error := None);
    var row := ResetCodeRow(st.email, GenerateResetCode(random), nowMs + CodeLifetimeMs);
    match insert
    case InsertFailed(message) =>
      ForgotStep(pending.(error := Some(message), loading := false), row, false, None)
    case Inserted =>
      ForgotStep(pending.(success := true, loading := false), row, true, Some(Redirect(ResetPassword, RedirectDelayMs)))
  }

  /** A failed email send changes nothing about the outcome. */
  lemma EmailFailureIsIgnored(st: ForgotState, random: real, nowMs: int, insert: InsertOutcome)
    requires 0.0 <= random < 1.0
    ensures HandleForgotPassword(st, random, nowMs, insert, EmailFailed)
         == HandleForgotPassword(st, random, nowMs, insert, EmailSent)
  {
  }
}
