/**
  The authentication provider (src/authContext.js): the status machine
  driven by the identity provider's auth-state notifications, the sign-out
  sequence, and the user records created for new accounts.

  The identity provider, its token calls and the user-creation mutation are
  not part of this model; their results are parameters.
 */
module Auth {
  import opened Prelude
  import opened Text

  /** `authState`: `loading`, `in` with the user and token, or `out`. */
  datatype AuthState = AuthLoading | SignedIn(uid: string, token: string) | SignedOut

  const InitialAuth: AuthState := AuthLoading

  /** The identity provider's user as the listener sees it. */
  datatype ProviderUser = ProviderUser(uid: string, token: string, hasHasuraClaim: bool)

  /** The `onAuthStateChanged` listener: a user whose token carries the Hasura
      claim signs in, a user without it leaves the state to the refresh-time
      listener, and no user signs out. */
  function OnAuthStateChanged(s: AuthState, user: Option<ProviderUser>): (r: AuthState)
    ensures user.None? ==> r == SignedOut
    ensures user.Some? && user.value.hasHasuraClaim ==> r == SignedIn(user.value.uid, user.value.token)
    ensures user.Some? && !user.value.hasHasuraClaim ==> r == s
  {
    match user
    case None => SignedOut
    case Some(u) => if u.hasHasuraClaim then SignedIn(u.uid, u.token) else s
  }

  /** The refresh-time listener as written: the guard `!data.exists` reads the
      snapshot's `exists` method without calling it, so it is never true and
      every value event signs the user in with a force-refreshed token. */
  function OnRefreshTimeAsWritten(s: AuthState, uid: string, snapshotExists: bool, refreshedToken: string): (r: AuthState)
    ensures r == SignedIn(uid, refreshedToken)
  {
    var existsMethodIsTruthy := true;
    if !existsMethodIsTruthy then s else SignedIn(uid, refreshedToken)
  }

  /** A snapshot with no refresh time still signs the user in as written. */
  lemma RefreshWithoutSnapshotSignsIn(uid: string, token: string)
    ensures OnRefreshTimeAsWritten(AuthLoading, uid, false, token).SignedIn?
    ensures OnRefreshTime(AuthLoading, uid, false, token) == AuthLoading
  {
  }

  /** The refresh-time listener as evidently intended: a missing snapshot leaves
      the state alone; an existing one signs in with the refreshed token. */
  function OnRefreshTime(s: AuthState, uid: string, snapshotExists: bool, refreshedToken: string): (r: AuthState)
    ensures !snapshotExists ==> r == s
    ensures snapshotExists ==> r == SignedIn(uid, refreshedToken)
  {
    if !snapshotExists then s else SignedIn(uid, refreshedToken)
  }

  /** The provider renders nothing while the status is `loading`. */
  function RendersChildren(s: AuthState): bool
  {
    !s.AuthLoading?
  }

  /** `signOut`: the states set, in order. `loading` is set first; `out`
      follows only when the provider's sign-out resolves (`providerSignedOut`),
      so a rejection leaves the state at `loading`, which renders nothing. */
  function SignOut(providerSignedOut: bool): (trace: seq<AuthState>)
    ensures |trace| > 0
    ensures trace[0] == AuthLoading && !RendersChildren(trace[0])
    ensures |trace| == 2 <==> providerSignedOut
    ensures providerSignedOut ==> trace[|trace| - 1] == SignedOut && RendersChildren(trace[|trace| - 1])
    ensures !providerSignedOut ==> trace == [AuthLoading] && !RendersChildren(trace[|trace| - 1])
  {
    if providerSignedOut then [AuthLoading, SignedOut] else [AuthLoading]
  }

  /** Feed a sequence of auth-state notifications to the listener, in order. */
  function ApplyNotifications(s: AuthState, users: seq<Option<ProviderUser>>): AuthState
  {
    if |users| == 0 then s
    else OnAuthStateChanged(ApplyNotifications(s, users[..|users| - 1]), users[|users| - 1])
  }

  /** Some notification in `users` carried a user with the claim and this uid. */
  predicate ClaimedBy(users: seq<Option<ProviderUser>>, uid: string)
  {
    exists i :: 0 <= i < |users| && users[i].Some? && users[i].value.hasHasuraClaim && users[i].value.uid == uid
  }

  /** The auth-state listener alone: starting signed out or loading, the state
      after any sequence of its notifications is `in` only for a user some
      notification reported with the claim, and a final notification without a
      user always signs out. The refresh-time listeners are left out here; the
      event fold below adds them. */
  lemma {:induction false} SignedInOnlyWithClaim(s: AuthState, users: seq<Option<ProviderUser>>)
    requires !s.SignedIn?
    ensures var r := ApplyNotifications(s, users); r.SignedIn? ==> ClaimedBy(users, r.uid)
    ensures |users| > 0 && users[|users| - 1].None? ==> ApplyNotifications(s, users) == SignedOut
  {
    if |users| > 0 {
      var init := users[..|users| - 1];
      var last := users[|users| - 1];
      SignedInOnlyWithClaim(s, init);
      var before := ApplyNotifications(s, init);
      var r := ApplyNotifications(s, users);
      if r.SignedIn? {
        if last.Some? && last.value.hasHasuraClaim {
          assert users[|users| - 1] == last;
        } else {
          assert r == before;
          var j :| 0 <= j < |init| && init[j].Some? && init[j].value.hasHasuraClaim && init[j].value.uid == r.uid;
          assert users[j] == init[j];
        }
      }
    }
  }

  // ---------------------------------------------------------------------------
  // Both listeners together

  /** What reaches the provider: an auth-state notification, or a value event
      of the refresh-time listener registered for `uid`. */
  datatype AuthEvent =
    | AuthChanged(user: Option<ProviderUser>)
    | RefreshTime(uid: string, snapshotExists: bool, token: string)

  function ApplyEvent(s: AuthState, e: AuthEvent): AuthState
  {
    match e
    case AuthChanged(user) => OnAuthStateChanged(s, user)
    case RefreshTime(uid, snapshotExists, token) => OnRefreshTimeAsWritten(s, uid, snapshotExists, token)
  }

  /** Feed a sequence of events to the listeners, in order. */
  function ApplyEvents(s: AuthState, events: seq<AuthEvent>): AuthState
  {
    if |events| == 0 then s
    else ApplyEvent(ApplyEvents(s, events[..|events| - 1]), events[|events| - 1])
  }

  /** Some auth-state notification in `events` reported this uid without the
      claim, so a refresh-time listener for it was registered (and never removed). */
  predicate ListenerRegistered(events: seq<AuthEvent>, uid: string)
  {
    exists i :: 0 <= i < |events| && events[i].AuthChanged? && events[i].user.Some?
      && !events[i].user.value.hasHasuraClaim && events[i].user.value.uid == uid
  }

  /** Every refresh-time event comes from a listener registered before it. */
  predicate FeasibleEvents(events: seq<AuthEvent>)
  {
    |events| == 0 ||
    (FeasibleEvents(events[..|events| - 1]) &&
     (events[|events| - 1].RefreshTime? ==> ListenerRegistered(events[..|events| - 1], events[|events| - 1].uid)))
  }

  /** Some auth-state notification in `events` reported a user with this uid. */
  predicate Reported(events: seq<AuthEvent>, uid: string)
  {
    exists i :: 0 <= i < |events| && events[i].AuthChanged? && events[i].user.Some? && events[i].user.value.uid == uid
  }

  /** With both listeners, starting signed out or loading, the state is `in`
      only for a user some auth-state notification reported, with or without
      the claim; a final notification without a user still signs out. */
  lemma {:induction false} SignedInOnlyReportedUser(s: AuthState, events: seq<AuthEvent>)
    requires !s.SignedIn?
    requires FeasibleEvents(events)
    ensures var r := ApplyEvents(s, events); r.SignedIn? ==> Reported(events, r.uid)
    ensures |events| > 0 && events[|events| - 1] == AuthChanged(None) ==> ApplyEvents(s, events) == SignedOut
  {
    if |events| > 0 {
      var init := events[..|events| - 1];
      var last := events[|events| - 1];
      SignedInOnlyReportedUser(s, init);
      var before := ApplyEvents(s, init);
      var r := ApplyEvents(s, events);
      if r.SignedIn? {
        if last.AuthChanged? && last.user.Some? && last.user.value.uid == r.uid {
          assert events[|events| - 1] == last;
        } else if last.RefreshTime? {
          var j :| 0 <= j < |init| && init[j].AuthChanged? && init[j].user.Some?
            && !init[j].user.value.hasHasuraClaim && init[j].user.value.uid == last.uid;
          assert events[j] == init[j];
        } else {
          assert r == before;
          var j :| 0 <= j < |init| && init[j].AuthChanged? && init[j].user.Some? && init[j].user.value.uid == r.uid;
          assert events[j] == init[j];
        }
      }
    }
  }

  /** The refresh-time listener outlives sign-out: a claimless user signs in,
      signs out, and a later value event for their refresh time signs them in
      again. */
  lemma RefreshAfterSignOutSignsBackIn(u: ProviderUser, token: string)
    requires !u.hasHasuraClaim
    ensures var events := [AuthChanged(Some(u)), AuthChanged(None), RefreshTime(u.uid, true, token)];
      && FeasibleEvents(events)
      && ApplyEvents(AuthLoading, events[..2]) == SignedOut
      && ApplyEvents(AuthLoading, events) == SignedIn(u.uid, token)
  {
    var events := [AuthChanged(Some(u)), AuthChanged(None), RefreshTime(u.uid, true, token)];
    assert events[..2][..1] == [AuthChanged(Some(u))];
    assert events[..1] == [AuthChanged(Some(u))];
    assert events[..2] == [AuthChanged(Some(u)), AuthChanged(None)];
    assert ListenerRegistered(events[..2], u.uid) by {
      assert events[..2][0] == AuthChanged(Some(u));
    }
    assert FeasibleEvents(events[..1]) by {
      assert events[..1][..0] == [];
    }
    assert FeasibleEvents(events[..2]);
    assert events[..3] == events;
  }

  // ---------------------------------------------------------------------------
  // New-user records

  /** The user row created for a new account. */
  datatype UserRecord = UserRecord(
    userId: string,
    name: string,
    username: string,
    email: string,
    bio: string,
    website: string,
    phoneNumber: string,
    profileImage: string)

  /** The bundled default avatar given to accounts created by e-mail sign-up. */
  const DefaultUserImage: string := "default-user-image.jpg"

  /** How many trailing characters of the uid end a Google username. */
  const UidSuffixLength: nat := 5

  /** `${displayName.replace(/\s+/g, '')}${uid.slice(-5)}`: the display name
      with all white space removed, then the last five characters of the uid
      (all of it when shorter). */
  function GoogleUsername(displayName: string, uid: string): (r: string)
    ensures var suffix := if |uid| < UidSuffixLength then |uid| else UidSuffixLength;
      && |r| >= suffix
      && r[|r| - suffix..] == uid[|uid| - suffix..]
      && r[..|r| - suffix] == RemoveWhitespace(displayName)
      && forall i :: 0 <= i < |r| - suffix ==> !IsJsWhitespace(r[i])
  {
    var name := RemoveWhitespace(displayName);
    var tail := TakeLast(uid, UidSuffixLength);
    assert (name + tail)[|name + tail| - |tail|..] == tail;
    name + tail
  }

  /** A display name without white space is kept verbatim before the uid suffix. */
  lemma GoogleUsernameKeepsPlainName(displayName: string, uid: string)
    requires forall i :: 0 <= i < |displayName| ==> !IsJsWhitespace(displayName[i])
    ensures GoogleUsername(displayName, uid) == displayName + TakeLast(uid, UidSuffixLength)
  {
    RemoveWhitespaceIdentity(displayName);
  }

  /** A two-word display name loses the space between its words: `Ada
      Lovelace` with uid `…xY12z` becomes `AdaLovelacexY12z`. */
  lemma GoogleUsernameJoinsWords(first: string, last: string, uid: string)
    requires forall i :: 0 <= i < |first| ==> !IsJsWhitespace(first[i])
    requires forall i :: 0 <= i < |last| ==> !IsJsWhitespace(last[i])
    ensures GoogleUsername(first + " " + last, uid) == first + last + TakeLast(uid, UidSuffixLength)
  {
    RemoveWhitespaceAppend(first + " ", last);
    RemoveWhitespaceAppend(first, " ");
    RemoveWhitespaceChar(' ');
    RemoveWhitespaceIdentity(first);
    RemoveWhitespaceIdentity(last);
    assert RemoveWhitespace(first + " " + last) == first + last;
  }

  /** What the sign-in popup reports about the Google account. */
  datatype GoogleSignIn = GoogleSignIn(isNewUser: bool, uid: string, displayName: string, email: string, photoUrl: string)

  /** `logInWithGoogle`: a record is created only for a new user, with empty
      bio, website and phone number, and the Google photo as avatar. */
  function GoogleNewUser(g: GoogleSignIn): (r: Option<UserRecord>)
    ensures r.Some? <==> g.isNewUser
    ensures r.Some? ==>
      && r.value.userId == g.uid && r.value.name == g.displayName && r.value.email == g.email
      && r.value.username == GoogleUsername(g.displayName, g.uid)
      && r.value.bio == "" && r.value.website == "" && r.value.phoneNumber == ""
      && r.value.profileImage == g.photoUrl
  {
    if !g.isNewUser then None
    else Some(UserRecord(g.uid, g.displayName, GoogleUsername(g.displayName, g.uid), g.email, "", "", "", g.photoUrl))
  }

  /** The sign-up form's fields. */
  datatype SignupForm = SignupForm(email: string, name: string, username: string, password: string)

  /** `signUpWithEmailAndPassword`: a record is created only for a new user,
      from the form's name and username, the provider's uid and e-mail, empty
      bio, website and phone number, and the default avatar. */
  function EmailNewUser(isNewUser: bool, form: SignupForm, uid: string, providerEmail: string): (r: Option<UserRecord>)
    ensures r.Some? <==> isNewUser
    ensures r.Some? ==>
      && r.value.userId == uid && r.value.name == form.name && r.value.username == form.username
      && r.value.email == providerEmail
      && r.value.bio == "" && r.value.website == "" && r.value.phoneNumber == ""
      && r.value.profileImage == DefaultUserImage
  {
    if !isNewUser then None
    else Some(UserRecord(uid, form.name, form.username, providerEmail, "", "", "", DefaultUserImage))
  }
}
