/**
  The log-in page (src/pages/login.js): the identifier-to-e-mail resolution,
  the field rules and submit button, the error mapping, and the show/hide
  password control; and the Google button's error.

  The e-mail validator is a parameter; the e-mail lookup and the sign-in
  calls are not part of this model, and their results are inputs.
 */
module Login {
  import opened Prelude
  import opened Forms

  /** The address used when no user matches the identifier. */
  const NoEmail: string := "no@email.com"

  /** The identifier and the password both need 5 characters. */
  const InputMinLength: nat := 5

  /** The identifier actually used: an e-mail as typed; anything else is
      replaced by the first matching user's e-mail (`users[0]?.email`), or by
      the fallback address when there is no match or it is empty. */
  function ResolveIdentifier(input: string, isEmail: string -> bool, firstUserEmail: Option<string>): (r: string)
    ensures isEmail(input) ==> r == input
    ensures !isEmail(input) && firstUserEmail.Some? && firstUserEmail.value != "" ==> r == firstUserEmail.value
    ensures !isEmail(input) && (firstUserEmail.None? || firstUserEmail.value == "") ==> r == NoEmail
  {
    if isEmail(input) then input
    else if firstUserEmail.Some? && firstUserEmail.value != "" then firstUserEmail.value
    else NoEmail
  }

  /** A username or phone number is never sent as typed unless it is the
      stored e-mail, and the address sent is never empty for a non-e-mail. */
  lemma ResolvedNeverEmpty(input: string, isEmail: string -> bool, firstUserEmail: Option<string>)
    requires !isEmail(input)
    ensures ResolveIdentifier(input, isEmail, firstUserEmail) != ""
    ensures ResolveIdentifier(input, isEmail, firstUserEmail) == NoEmail ||
      Some(ResolveIdentifier(input, isEmail, firstUserEmail)) == firstUserEmail
  {
  }

  /** `formState.isValid`: both fields present with at least 5 characters. */
  function FormValid(input: string, password: string): (r: bool)
    ensures r <==> |input| >= 5 && |password| >= 5
  {
    AtLeast(input, InputMinLength) && AtLeast(password, InputMinLength)
  }

  /** `disabled={!formState.isValid || formState.isSubmitting}`. */
  function SubmitDisabled(input: string, password: string, submitting: bool): (r: bool)
    ensures !r <==> |input| >= 5 && |password| >= 5 && !submitting
  {
    !FormValid(input, password) || submitting
  }

  /** `handleError`: only an auth code sets the message. */
  function HandleError(current: string, e: ErrorInfo): (r: string)
    ensures IsAuthCode(e) ==> r == e.message
    ensures !IsAuthCode(e) ==> r == current
  {
    if IsAuthCode(e) then e.message else current
  }

  /** How the sign-in call ended. */
  datatype LoginOutcome = LoggedIn | Failed(error: ErrorInfo)

  /** `onSubmit`: clear the error, then go home or map the caught error. */
  function Submit(outcome: LoginOutcome): (r: (string, Option<string>))
    ensures outcome.LoggedIn? ==> r == ("", Some("/"))
    ensures outcome.Failed? ==> r.1.None? && (r.0 != "" ==> IsAuthCode(outcome.error) && r.0 == outcome.error.message)
    ensures outcome.Failed? && IsAuthCode(outcome.error) ==> r.0 == outcome.error.message
  {
    match outcome
    case LoggedIn => ("", Some("/"))
    case Failed(e) => (HandleError("", e), None)
  }

  /** The password field's controls. */
  datatype PasswordView = PasswordView(toggle: Option<string>, inputType: string)

  /** The Show/Hide button appears iff a password is typed; its caption is
      `Hide` while the password is shown; the field is a text field iff
      the password is shown. */
  function RenderPassword(password: string, showPassword: bool): (v: PasswordView)
    ensures v.toggle.Some? <==> password != ""
    ensures v.toggle.Some? ==> (v.toggle.value == "Hide" <==> showPassword) && (v.toggle.value == "Show" <==> !showPassword)
    ensures v.inputType == "text" <==> showPassword
    ensures v.inputType == "password" <==> !showPassword
  {
    var caption := if showPassword then "Hide" else "Show";
    PasswordView(if password != "" then Some(caption) else None, if showPassword then "text" else "password")
  }

  /** The toggle's click is `Flip` on `showPassword`: one click changes the
      field's type, two clicks restore it. */
  lemma ToggleTwiceRestores(password: string, showPassword: bool)
    ensures RenderPassword(password, Flip(Flip(showPassword))) == RenderPassword(password, showPassword)
    ensures RenderPassword(password, Flip(showPassword)).inputType != RenderPassword(password, showPassword).inputType
  {
  }

  /** The Google button's handler: a failure shows the error's message as is,
      whatever its code. */
  function GoogleLoginError(current: string, outcome: LoginOutcome): (r: string)
    ensures outcome.Failed? ==> r == outcome.error.message
    ensures outcome.LoggedIn? ==> r == current
  {
    match outcome
    case LoggedIn => current
    case Failed(e) => e.message
  }
}
