/**
  The validation rules the sign-up, log-in and edit-profile forms register
  with their form library, and the shape of the errors their submit handlers
  catch. A `required` field must be non-empty; `minLength`/`maxLength` bound
  the length of the value; the username `pattern` is `^[a-zA-Z0-9_.]*$`.

  Lengths count characters of the model's strings (the browser counts UTF-16
  code units).
 */
module Forms {
  import opened Prelude
  import opened Text

  /** The bounds shared by the name and username fields. */
  const MinLength: nat := 5
  const MaxLength: nat := 20

  /** The bio field's `maxLength`. */
  const BioMaxLength: nat := 120

  /** `required: true, minLength: lo, maxLength: hi`. */
  predicate LengthWithin(s: string, lo: nat, hi: nat)
  {
    s != "" && lo <= |s| <= hi
  }

  /** `required: true, minLength: lo` with no upper bound. */
  predicate AtLeast(s: string, lo: nat)
  {
    s != "" && lo <= |s|
  }

  /** One character of the class `[a-zA-Z0-9_.]`. */
  predicate IsUsernameChar(c: char)
  {
    ('a' <= c <= 'z') || ('A' <= c <= 'Z') || ('0' <= c <= '9') || c == '_' || c == '.'
  }

  /** `/^[a-zA-Z0-9_.]*$/.test(s)`, scanning from the left. */
  function MatchesUsernamePattern(s: string): (r: bool)
    ensures r <==> forall i :: 0 <= i < |s| ==> IsUsernameChar(s[i])
  {
    if |s| == 0 then true
    else IsUsernameChar(s[0]) && MatchesUsernamePattern(s[1..])
  }

  /** The name rule shared by sign-up and edit-profile. */
  predicate NameValid(name: string)
  {
    LengthWithin(name, MinLength, MaxLength)
  }

  /** The username rule shared by sign-up and edit-profile, before any
      availability check. */
  function UsernameShapeValid(username: string): (r: bool)
    ensures r <==> MinLength <= |username| <= MaxLength && forall i :: 0 <= i < |username| ==> IsUsernameChar(username[i])
  {
    LengthWithin(username, MinLength, MaxLength) && MatchesUsernamePattern(username)
  }

  /** A username of the required shape has no white space and no `/`, so it
      is a single path segment. */
  lemma UsernameIsSegment(username: string)
    requires UsernameShapeValid(username)
    ensures '/' !in username && |username| > 0
    ensures forall i :: 0 <= i < |username| ==> !IsJsWhitespace(username[i])
  {
  }

  /** The error object a submit handler catches: its message and its `code`,
      absent for errors that do not come from the identity provider. */
  datatype ErrorInfo = ErrorInfo(message: string, code: Option<string>)

  /** The marker of a violated unique username constraint in a backend message. */
  const UsernameKey: string := "users_username_key"

  /** `error.message.includes('users_username_key')`. */
  function IsUsernameTaken(e: ErrorInfo): (r: bool)
    ensures r <==> exists i :: OccursAt(e.message, UsernameKey, i)
  {
    Includes(e.message, UsernameKey)
  }

  /** `error.code.includes('auth')`; an absent code makes the handler throw,
      which leaves the page's state as it was, so it counts as no match. */
  function IsAuthCode(e: ErrorInfo): (r: bool)
    ensures r <==> e.code.Some? && exists i :: OccursAt(e.code.value, "auth", i)
  {
    e.code.Some? && Includes(e.code.value, "auth")
  }

  /** The provider's `auth/...` codes are auth codes. */
  lemma ProviderCodesAreAuthCodes(message: string, rest: string)
    ensures IsAuthCode(ErrorInfo(message, Some("auth/" + rest)))
  {
    assert "auth/" + rest == "" + "auth" + ("/" + rest);
    IncludesInfix("", "auth", "/" + rest);
  }

  /** `<AuthError error={error} />` renders iff `!!error`. */
  function AuthErrorVisible(error: string): (r: bool)
    ensures r <==> |error| > 0
  {
    error != ""
  }
}
