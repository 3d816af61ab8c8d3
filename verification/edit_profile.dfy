/**
  The edit-profile page (src/pages/edit-profile.js): the side drawer, the
  field rules of the profile form, the mapping of a failed update to a field
  error, and the helper text that shows it under the right field.

  The URL, e-mail and mobile-phone validators are library functions; they are
  parameters here. The e-mail update, the profile mutation and the avatar
  upload are not part of this model; their outcome is an input.
 */
module EditProfile {
  import opened Prelude
  import opened Text
  import opened Forms

  // ---------------------------------------------------------------------------
  // Drawer

  /** The drawer's entries, top to bottom. */
  const DrawerOptions: seq<string> := [
    "Edit Profile", "Change Password", "Apps and Websites", "Email and SMS", "Push Notifications",
    "Manage Contacts", "Privacy and Security", "Login Activity", "Emails from Instagram"]

  /** `handleSelected(index)`: only the first entry can be selected, and it is
      iff the path contains `edit`. */
  function Selected(index: nat, path: string): (r: bool)
    ensures r <==> index == 0 && exists i :: OccursAt(path, "edit", i)
  {
    index == 0 && Includes(path, "edit")
  }

  /** `handleListClick(index)`: only the first entry navigates, to the edit page. */
  function ListClick(index: nat): (r: Option<string>)
    ensures r.Some? <==> index == 0
    ensures r.Some? ==> r.value == "/accounts/edit"
  {
    if index == 0 then Some("/accounts/edit") else None
  }

  /** The form is rendered iff the path contains `edit`, exactly when the
      first drawer entry is selected. */
  function ShowsForm(path: string): (r: bool)
    ensures r <==> Selected(0, path)
  {
    Includes(path, "edit")
  }

  /** On the edit page's own path the form is shown and the first entry selected. */
  lemma EditPathShowsForm()
    ensures ShowsForm("/accounts/edit") && Selected(0, "/accounts/edit")
  {
    IncludesInfix("/accounts/", "edit", "");
    assert "/accounts/" + "edit" + "" == "/accounts/edit";
  }

  // `handleToggleDrawer` is `Prelude.Flip` on `showDrawer`.

  // ---------------------------------------------------------------------------
  // The profile form

  datatype ProfileForm = ProfileForm(
    name: string,
    username: string,
    website: string,
    bio: string,
    email: string,
    phoneNumber: string)

  /** Every rule of the form: name and username as shared; the website, if
      given, a URL; a bio of at most 120 characters; a required e-mail; the
      phone number, if given, a mobile number. */
  function FormValid(f: ProfileForm, isUrl: string -> bool, isEmail: string -> bool, isMobilePhone: string -> bool): (r: bool)
    ensures r <==>
      && 5 <= |f.name| <= 20
      && 5 <= |f.username| <= 20 && (forall i :: 0 <= i < |f.username| ==> IsUsernameChar(f.username[i]))
      && (f.website == "" || isUrl(f.website))
      && |f.bio| <= 120
      && f.email != "" && isEmail(f.email)
      && (f.phoneNumber == "" || isMobilePhone(f.phoneNumber))
  {
    && NameValid(f.name)
    && UsernameShapeValid(f.username)
    && (f.website != "" ==> isUrl(f.website))
    && |f.bio| <= BioMaxLength
    && f.email != "" && isEmail(f.email)
    && (f.phoneNumber != "" ==> isMobilePhone(f.phoneNumber))
  }

  /** Leaving the optional fields empty never makes a form invalid. */
  lemma OptionalFieldsMayBeEmpty(f: ProfileForm, isUrl: string -> bool, isEmail: string -> bool, isMobilePhone: string -> bool)
    requires FormValid(f, isUrl, isEmail, isMobilePhone)
    ensures FormValid(f.(website := "", bio := "", phoneNumber := ""), isUrl, isEmail, isMobilePhone)
  {
  }

  // ---------------------------------------------------------------------------
  // Errors

  /** `error`: the field it belongs to (`type`) and the message. */
  datatype FieldError = FieldError(kind: string, message: string)

  const NoError: FieldError := FieldError("", "")

  const UsernameTakenMessage: string := "This username is already taken"

  /** `handleError`: a taken username is a username error; otherwise an auth
      code is an e-mail error with the provider's message; anything else
      leaves the error as it was. */
  function HandleError(current: FieldError, e: ErrorInfo): (r: FieldError)
    ensures IsUsernameTaken(e) ==> r == FieldError("username", UsernameTakenMessage)
    ensures !IsUsernameTaken(e) && IsAuthCode(e) ==> r == FieldError("email", e.message)
    ensures !IsUsernameTaken(e) && !IsAuthCode(e) ==> r == current
  {
    if IsUsernameTaken(e) then FieldError("username", UsernameTakenMessage)
    else if IsAuthCode(e) then FieldError("email", e.message)
    else current
  }

  /** How the update ended. */
  datatype UpdateOutcome = Updated | Failed(error: ErrorInfo)

  /** The form's error and the `Profile updated` snackbar after a submit. */
  datatype AfterSubmit = AfterSubmit(error: FieldError, snackbarOpen: bool)

  /** `onSubmit`: the error is reset first; success opens the snackbar, a
      failure maps the caught error. */
  function Submit(current: AfterSubmit, outcome: UpdateOutcome): (r: AfterSubmit)
    ensures outcome.Updated? ==> r == AfterSubmit(NoError, true)
    ensures outcome.Failed? ==> r == AfterSubmit(HandleError(NoError, outcome.error), current.snackbarOpen)
  {
    var reset := current.(error := NoError);
    match outcome
    case Updated => reset.(snackbarOpen := true)
    case Failed(e) => reset.(error := HandleError(reset.error, e))
  }

  /** No error survives a submit: the error after a submit depends only on
      that submit's outcome, and an error the mapping ignores leaves none. */
  lemma SubmitForgetsOldError(a: AfterSubmit, b: AfterSubmit, outcome: UpdateOutcome)
    ensures Submit(a, outcome).error == Submit(b, outcome).error
    ensures outcome.Failed? && !IsUsernameTaken(outcome.error) && !IsAuthCode(outcome.error) ==>
      Submit(a, outcome).error == NoError
  {
  }

  /** Only the username and e-mail fields receive the `error` prop. */
  predicate ReceivesError(field: string)
  {
    field == "username" || field == "email"
  }

  /** `helperText={error?.type === name && error.message}`: a field shows the
      message iff it receives the error, its name is the error's type and
      the message is non-empty. */
  function HelperText(field: string, error: FieldError): (r: Option<string>)
    ensures r.Some? <==> ReceivesError(field) && error.kind == field && error.message != ""
    ensures r.Some? ==> r.value == error.message
  {
    if ReceivesError(field) && error.kind == field && error.message != "" then Some(error.message) else None
  }

  /** At most one field shows helper text, and it is the field the mapping chose. */
  lemma HelperTextOnOneField(current: FieldError, e: ErrorInfo, f: string, g: string)
    requires current == NoError
    requires HelperText(f, HandleError(current, e)).Some? && HelperText(g, HandleError(current, e)).Some?
    ensures f == g
    ensures f == (if IsUsernameTaken(e) then "username" else "email")
  {
  }
}
