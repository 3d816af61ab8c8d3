/**
  The follow button of user cards and suggestions
  (src/components/shared/FollowButton.js), and the follow/unfollow mutations
  it shares with the profile page and the post options dialog.
 */
module FollowButton {
  import opened Prelude
  import opened Posts

  /** The follow and unfollow mutations' variables (both name the target `userIdToFollow`). */
  datatype FollowMutation =
    | FollowUser(userIdToFollow: UserId, currentUserId: UserId)
    | UnfollowUser(userIdToFollow: UserId, currentUserId: UserId)

  /** `followingIds.some(id => id === target)`. */
  function IsFollowingId(followingIds: seq<UserId>, target: UserId): (r: bool)
    ensures r <==> target in followingIds
  {
    AnyRowBy(followingIds, target)
  }

  /** A material button's `variant`. */
  datatype Variant = TextVariant | Contained | Outlined

  /** The rendered button: its caption, its variant and the mutation a click sends. */
  datatype ButtonView = ButtonView(caption: string, variant: Variant, onClick: FollowMutation)

  /** `useState(isAlreadyFollowing)`. */
  function InitialFollowing(followingIds: seq<UserId>, target: UserId): (r: bool)
    ensures r <==> target in followingIds
  {
    IsFollowingId(followingIds, target)
  }

  /** `isFollowing ? followingButton : followButton`: `Following` unfollows,
      `Follow` follows; in the side panel both are text buttons, elsewhere
      `Follow` is contained and `Following` outlined. */
  function Render(isFollowing: bool, side: bool, target: UserId, currentUserId: UserId): (v: ButtonView)
    ensures v.caption == "Following" <==> isFollowing
    ensures v.caption == "Follow" <==> !isFollowing
    ensures v.onClick.UnfollowUser? <==> isFollowing
    ensures v.onClick.userIdToFollow == target && v.onClick.currentUserId == currentUserId
    ensures side ==> v.variant == TextVariant
    ensures !side ==> (v.variant == Outlined <==> isFollowing) && (v.variant == Contained <==> !isFollowing)
  {
    if isFollowing then ButtonView("Following", if side then TextVariant else Outlined, UnfollowUser(target, currentUserId))
    else ButtonView("Follow", if side then TextVariant else Contained, FollowUser(target, currentUserId))
  }

  /** The state after the click's handler: follow sets it, unfollow clears it. */
  function AfterClick(m: FollowMutation): (isFollowing: bool)
    ensures isFollowing <==> m.FollowUser?
  {
    m.FollowUser?
  }

  /** A click always toggles the state. */
  lemma ClickToggles(isFollowing: bool, side: bool, target: UserId, me: UserId)
    ensures AfterClick(Render(isFollowing, side, target, me).onClick) == Flip(isFollowing)
  {
  }

  /** The state after `n` clicks. */
  function ClickN(isFollowing: bool, side: bool, target: UserId, me: UserId, n: nat): bool
  {
    if n == 0 then isFollowing else AfterClick(Render(ClickN(isFollowing, side, target, me, n - 1), side, target, me).onClick)
  }

  /** After `n` clicks the button shows `Following` iff the parity of `n` says so. */
  lemma {:induction false} ClickNParity(isFollowing: bool, side: bool, target: UserId, me: UserId, n: nat)
    ensures ClickN(isFollowing, side, target, me, n) == Clicks(isFollowing, n)
    ensures ClickN(isFollowing, side, target, me, n) == (if n % 2 == 0 then isFollowing else !isFollowing)
  {
    if n > 0 {
      ClickNParity(isFollowing, side, target, me, n - 1);
    }
    ClicksParity(isFollowing, n);
  }
}
