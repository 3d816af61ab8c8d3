/**
  The profile page (src/pages/profile.js): the owner check, the follow state
  machine of the name section with its unfollow confirmation dialog, the
  button chosen for a visitor, the edit-profile links, the count section and
  the options menu's log-out message.
 */
module Profile {
  import opened Prelude
  import opened Posts
  import opened Routes
  import opened FollowButton

  /** The profile query's user row, as far as the page reads it. */
  datatype ProfileUser = ProfileUser(
    id: UserId,
    username: string,
    name: string,
    postsCount: nat,
    followersCount: nat,
    followingCount: nat)

  /** `const [user] = data.users`; `None` stands for the TypeError raised when
      the query returns no user. */
  function LoadedUser(users: seq<ProfileUser>): (r: Option<ProfileUser>)
    ensures r.Some? <==> |users| > 0
    ensures r.Some? ==> r.value == users[0]
  {
    if |users| == 0 then None else Some(users[0])
  }

  // ---------------------------------------------------------------------------
  // The name section's follow state

  /** `isFollowing` and `unfollowDialog`. */
  datatype FollowState = FollowState(isFollowing: bool, unfollowDialog: bool)

  function InitialFollowState(user: ProfileUser, followingIds: seq<UserId>): (s: FollowState)
    ensures s.isFollowing <==> user.id in followingIds
    ensures !s.unfollowDialog
  {
    FollowState(IsFollowingId(followingIds, user.id), false)
  }

  /** `!isFollowing && followersIds.some(id => id === user.id)`. */
  function IsFollower(s: FollowState, user: ProfileUser, followersIds: seq<UserId>): (r: bool)
    ensures r <==> !s.isFollowing && user.id in followersIds
  {
    !s.isFollowing && IsFollowingId(followersIds, user.id)
  }

  /** The button a profile shows: the owner's edit link, or one of the three
      follow buttons for a visitor. */
  datatype NameButton = EditProfile(link: string) | FollowingButton | FollowBackButton | FollowPlainButton

  /** The desktop edit link and the one the small-screen layout uses as written. */
  const EditLinkLarge: string := "/accounts/edit"
  const EditLinkSmallAsWritten: string := "/account/edit"

  /** The button on the small-screen layout as written. */
  function ChooseButtonSmallAsWritten(owner: bool, s: FollowState, user: ProfileUser, followersIds: seq<UserId>): NameButton
  {
    if owner then EditProfile(EditLinkSmallAsWritten) else VisitorButton(s, user, followersIds)
  }

  /** The large-screen Edit Profile link opens the edit page. */
  lemma LargeEditLinkResolves()
    ensures ResolveAuthenticated(SplitPath(EditLinkLarge)) == EditProfilePage
  {
    SplitJoinRoundTrip(["accounts", "edit"]);
    assert JoinPath(["accounts", "edit"]) == EditLinkLarge;
    AuthenticatedRouting(["accounts", "edit"]);
  }

  /** As written, the small-screen Edit Profile link leads to the not-found page. */
  lemma SmallEditLinkIsNotFound()
    ensures ResolveAuthenticated(SplitPath(EditLinkSmallAsWritten)) == NotFoundPage
  {
    SplitJoinRoundTrip(["account", "edit"]);
    assert JoinPath(["account", "edit"]) == EditLinkSmallAsWritten;
    AuthenticatedRouting(["account", "edit"]);
  }

  /** The visitor's follow button: `Following` when following, else
      `Follow Back` for a follower, else `Follow`. */
  function VisitorButton(s: FollowState, user: ProfileUser, followersIds: seq<UserId>): (b: NameButton)
    ensures b.FollowingButton? <==> s.isFollowing
    ensures b.FollowBackButton? <==> IsFollower(s, user, followersIds)
    ensures b.FollowPlainButton? <==> !s.isFollowing && user.id !in followersIds
    ensures !b.EditProfile?
  {
    if s.isFollowing then FollowingButton
    else if IsFollower(s, user, followersIds) then FollowBackButton
    else FollowPlainButton
  }

  /** The button on both layouts, with the small-screen link going to the edit
      page as evidently intended: the owner gets the edit link to the edit
      page and never a follow button; a visitor never gets the edit link. */
  function ChooseButton(owner: bool, s: FollowState, user: ProfileUser, followersIds: seq<UserId>): (b: NameButton)
    ensures b.EditProfile? <==> owner
    ensures owner ==> ResolveAuthenticated(SplitPath(b.link)) == EditProfilePage
    ensures !owner ==> b == VisitorButton(s, user, followersIds)
  {
    LargeEditLinkResolves();
    if owner then EditProfile(EditLinkLarge) else VisitorButton(s, user, followersIds)
  }

  /** The name section's button for the loaded profile: the owner test
      `user.id === currentUserId` decides between the edit link and a follow
      button. */
  function NameSectionButton(user: ProfileUser, currentUserId: UserId, s: FollowState, followersIds: seq<UserId>): NameButton
  {
    ChooseButton(IsOwner(currentUserId, user.id), s, user, followersIds)
  }

  /** A viewer sees the edit link, and it opens the edit page, exactly on their
      own profile; on anyone else's profile they see a follow button. */
  lemma OwnProfileShowsEditLink(user: ProfileUser, currentUserId: UserId, s: FollowState, followersIds: seq<UserId>)
    ensures NameSectionButton(user, currentUserId, s, followersIds).EditProfile? <==> user.id == currentUserId
    ensures user.id == currentUserId ==>
      ResolveAuthenticated(SplitPath(NameSectionButton(user, currentUserId, s, followersIds).link)) == EditProfilePage
    ensures user.id != currentUserId ==>
      NameSectionButton(user, currentUserId, s, followersIds) == VisitorButton(s, user, followersIds)
  {
  }

  /** The events of the name section. */
  datatype Event = ClickFollow | ClickFollowing | ConfirmUnfollow | CancelUnfollow

  /** A step of the name section: the new state and the mutation sent, if any.
      Clicking `Follow`/`Follow Back` follows; clicking `Following` opens the
      dialog; confirming unfollows and closes it; cancelling only closes it. */
  function Step(s: FollowState, e: Event, user: ProfileUser, currentUserId: UserId): (r: (FollowState, Option<FollowMutation>))
    ensures e == ClickFollow ==> r.0 == s.(isFollowing := true) && r.1 == Some(FollowUser(user.id, currentUserId))
    ensures e == ClickFollowing ==> r.0 == s.(unfollowDialog := true) && r.1.None?
    ensures e == ConfirmUnfollow ==> r.0 == FollowState(false, false) && r.1 == Some(UnfollowUser(user.id, currentUserId))
    ensures e == CancelUnfollow ==> r.0 == s.(unfollowDialog := false) && r.1.None?
  {
    match e
    case ClickFollow => (s.(isFollowing := true), Some(FollowUser(user.id, currentUserId)))
    case ClickFollowing => (s.(unfollowDialog := true), None)
    case ConfirmUnfollow => (FollowState(false, false), Some(UnfollowUser(user.id, currentUserId)))
    case CancelUnfollow => (s.(unfollowDialog := false), None)
  }

  /** Following from either follow button shows `Following`; unfollowing
      through the dialog then returns to `Follow Back` for a follower and to
      `Follow` otherwise, with the dialog closed. */
  lemma FollowUnfollowRoundTrip(s: FollowState, user: ProfileUser, me: UserId, followersIds: seq<UserId>)
    requires !s.isFollowing && !s.unfollowDialog
    ensures var followed := Step(s, ClickFollow, user, me).0;
      VisitorButton(followed, user, followersIds) == FollowingButton
    ensures var followed := Step(s, ClickFollow, user, me).0;
      var shown := Step(followed, ClickFollowing, user, me).0;
      var closed := Step(shown, ConfirmUnfollow, user, me).0;
      closed == s && VisitorButton(closed, user, followersIds) == VisitorButton(s, user, followersIds)
  {
  }

  /** Cancelling the dialog keeps the user followed. */
  lemma CancelKeepsFollowing(s: FollowState, user: ProfileUser, me: UserId)
    requires s.isFollowing
    ensures var shown := Step(s, ClickFollowing, user, me).0;
      Step(shown, CancelUnfollow, user, me).0 == s.(unfollowDialog := false)
      && Step(shown, CancelUnfollow, user, me).0.isFollowing
  {
  }

  // ---------------------------------------------------------------------------
  // Count section and options menu

  /** `['posts', 'followers', 'following']` with each one's aggregate count. */
  function CountSection(user: ProfileUser): (r: seq<(string, nat)>)
    ensures |r| == 3
    ensures r[0] == ("posts", user.postsCount)
    ensures r[1] == ("followers", user.followersCount)
    ensures r[2] == ("following", user.followingCount)
  {
    [("posts", user.postsCount), ("followers", user.followersCount), ("following", user.followingCount)]
  }

  /** The options menu's items, top to bottom. */
  const OptionsItems: seq<string> :=
    ["Change Password", "Nametag", "Authorized Apps", "Notifications", "Privacy and Security", "Log Out", "Cancel"]

  /** The options menu shows either its items or, after `Log Out`, the
      log-out message. */
  datatype MenuView = Items(items: seq<string>) | LoggingOut(title: string)

  function RenderOptionsMenu(logoutMessage: bool): (v: MenuView)
    ensures v.LoggingOut? <==> logoutMessage
    ensures v.Items? ==> v.items == OptionsItems && v.items[|v.items| - 2] == "Log Out"
  {
    if logoutMessage then LoggingOut("Logging Out") else Items(OptionsItems)
  }
}
