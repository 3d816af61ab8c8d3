/**
  The sign-up page (src/pages/signup.js): its field rules, the username
  availability check, and the mapping of a failed sign-up to the message
  shown under the form.

  The availability query, the e-mail validator and the sign-up call are not
  part of this model; the number of users the query finds, the validator and
  the call's outcome are inputs.
 */
module Signup {
  import opened Prelude
  import opened Text
  import opened Forms
  import opened Auth
  import opened Routes

  /** The password's `minLength`. */
  const PasswordMinLength: nat := 5

  /** `validateUsername`: available iff the lookup finds no user with it. */
  function UsernameAvailable(takenCount: nat): (r: bool)
    ensures r <==> takenCount == 0
  {
    takenCount == 0
  }

  /** Every rule of the form: a required e-mail the validator accepts, a name
      of 5 to 20 characters, an available username of 5 to 20 characters from
      `[a-zA-Z0-9_.]`, and a password of at least 5 characters. */
  function FormValid(f: SignupForm, isEmail: string -> bool, takenCount: nat): (r: bool)
    ensures r <==>
      && f.email != "" && isEmail(f.email)
      && 5 <= |f.name| <= 20
      && 5 <= |f.username| <= 20 && (forall i :: 0 <= i < |f.username| ==> IsUsernameChar(f.username[i]))
      && takenCount == 0
      && |f.password| >= 5
  {
    && f.email != "" && isEmail(f.email)
    && NameValid(f.name)
    && UsernameShapeValid(f.username) && UsernameAvailable(takenCount)
    && AtLeast(f.password, PasswordMinLength)
  }

  /** A username that is already taken never passes, whatever its shape. */
  lemma TakenUsernameRejected(f: SignupForm, isEmail: string -> bool, takenCount: nat)
    requires takenCount > 0
    ensures !FormValid(f, isEmail, takenCount)
  {
  }

  const UsernameTakenMessage: string := "Username already taken"

  /** `handleError`: a taken username gives its message; otherwise an auth
      code gives the provider's message; anything else leaves the error. */
  function HandleError(current: string, e: ErrorInfo): (r: string)
    ensures IsUsernameTaken(e) ==> r == UsernameTakenMessage
    ensures !IsUsernameTaken(e) && IsAuthCode(e) ==> r == e.message
    ensures !IsUsernameTaken(e) && !IsAuthCode(e) ==> r == current
  {
    if IsUsernameTaken(e) then UsernameTakenMessage
    else if IsAuthCode(e) then e.message
    else current
  }

  /** How the sign-up call ended. */
  datatype SignupOutcome = SignedUp | Failed(error: ErrorInfo)

  /** The page after a submit: the message under the form and where it navigates. */
  datatype AfterSubmit = AfterSubmit(error: string, navigateTo: Option<string>)

  /** `onSubmit`: the error is cleared first; success navigates home, a failure
      maps the caught error. */
  function Submit(outcome: SignupOutcome): (r: AfterSubmit)
    ensures outcome.SignedUp? ==> r == AfterSubmit("", Some("/")) && !AuthErrorVisible(r.error)
    ensures outcome.Failed? ==> r == AfterSubmit(HandleError("", outcome.error), None)
  {
    match outcome
    case SignedUp => AfterSubmit("", Some("/"))
    case Failed(e) => AfterSubmit(HandleError("", e), None)
  }

  /** A failed sign-up shows a message iff the mapping produced a non-empty
      one: always for a taken username, for an auth error iff its message is
      non-empty, never otherwise. */
  lemma FailureVisibility(e: ErrorInfo)
    ensures AuthErrorVisible(Submit(Failed(e)).error) <==>
      IsUsernameTaken(e) || (IsAuthCode(e) && e.message != "")
  {
  }

  /** A backend unique-key violation is reported as a taken username even
      when it also carries an auth code. */
  lemma UsernameKeyWins(prefix: string, suffix: string, code: Option<string>)
    ensures HandleError("", ErrorInfo(prefix + UsernameKey + suffix, code)) == UsernameTakenMessage
  {
    IncludesInfix(prefix, UsernameKey, suffix);
  }

  /** Any username the form accepts is one path segment, so the profile link
      `/` ++ username opens that user's profile; the one exception is the
      accepted username `explore`, whose link the explore route takes. */
  lemma AcceptedUsernameProfileLink(username: string)
    requires UsernameShapeValid(username)
    ensures username != "explore" ==> ResolveAuthenticated(SplitPath("/" + username)) == ProfilePage(username)
    ensures username == "explore" ==> ResolveAuthenticated(SplitPath("/" + username)) == ExplorePage
  {
    UsernameIsSegment(username);
    ProfileLinkResolves(username);
  }

  /** `explore` passes every shape rule. */
  lemma ExploreIsAcceptedUsername()
    ensures UsernameShapeValid("explore")
  {
  }
}
