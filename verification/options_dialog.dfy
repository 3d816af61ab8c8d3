/**
  The post options dialog (src/components/shared/OptionsDialog.js): the
  owner of a post may delete it, a follower of its author may unfollow, and
  anyone else gets no red action button.
 */
module OptionsDialog {
  import opened Prelude
  import opened Posts
  import opened FollowButton

  /** What the red button does. */
  datatype RedAction = DeletePost | UnfollowAuthor

  /** The dialog's buttons: the optional red action with its text, and the
      `Go to post` link. */
  datatype DialogView = DialogView(redButton: Option<(string, RedAction)>, postLink: string)

  /** `!isOwner && !isFollowing`. */
  function IsUnrelatedUser(currentUserId: UserId, followingIds: seq<UserId>, authorId: UserId): (r: bool)
    ensures r <==> currentUserId != authorId && authorId !in followingIds
  {
    !IsOwner(currentUserId, authorId) && !IsFollowingId(followingIds, authorId)
  }

  function Render(currentUserId: UserId, followingIds: seq<UserId>, authorId: UserId, postId: PostId): (v: DialogView)
    ensures v.redButton.Some? <==> currentUserId == authorId || authorId in followingIds
    ensures v.redButton.Some? ==>
      (v.redButton.value == ("Delete", DeletePost) <==> currentUserId == authorId) &&
      (v.redButton.value == ("Unfollow", UnfollowAuthor) <==> currentUserId != authorId)
    ensures v.postLink == "/p/" + postId
  {
    var owner := IsOwner(currentUserId, authorId);
    var action := if owner then ("Delete", DeletePost) else ("Unfollow", UnfollowAuthor);
    DialogView(if IsUnrelatedUser(currentUserId, followingIds, authorId) then None else Some(action), "/p/" + postId)
  }

  /** The owner always sees Delete, even for a post of their own they do not
      "follow"; a follower who is not the owner always sees Unfollow. */
  lemma OwnerAlwaysDeletes(currentUserId: UserId, followingIds: seq<UserId>, authorId: UserId, postId: PostId)
    ensures IsOwner(currentUserId, authorId) ==>
      Render(currentUserId, followingIds, authorId, postId).redButton == Some(("Delete", DeletePost))
    ensures !IsOwner(currentUserId, authorId) && authorId in followingIds ==>
      Render(currentUserId, followingIds, authorId, postId).redButton == Some(("Unfollow", UnfollowAuthor))
  {
  }

  /** The effects of the red button's handler. */
  datatype Effect = Effect(
    deletePost: Option<(PostId, UserId)>,
    unfollow: Option<FollowMutation>,
    dialogOpen: bool,
    navigateTo: Option<string>,
    reload: bool)

  /** `handleDeletePost`: send the delete and await it; only when it resolves
      (`deleteSucceeded`) close, go home and reload, while a rejection leaves
      the dialog open where it was. `handleUnfollowUser`: send the unfollow
      without awaiting it and close. */
  function Press(action: RedAction, deleteSucceeded: bool, currentUserId: UserId, authorId: UserId, postId: PostId): (e: Effect)
    ensures e.dialogOpen <==> action == DeletePost && !deleteSucceeded
    ensures e.deletePost.Some? <==> action == DeletePost
    ensures e.unfollow.Some? <==> action == UnfollowAuthor
    ensures e.deletePost.Some? ==>
      && e.deletePost.value == (postId, currentUserId)
      && (e.navigateTo.Some? <==> deleteSucceeded) && (e.reload <==> deleteSucceeded)
      && (e.navigateTo.Some? ==> e.navigateTo.value == "/")
    ensures e.unfollow.Some? ==> e.unfollow.value == UnfollowUser(authorId, currentUserId) && e.navigateTo.None? && !e.reload
  {
    match action
    case DeletePost =>
      if deleteSucceeded then Effect(Some((postId, currentUserId)), None, false, Some("/"), true)
      else Effect(Some((postId, currentUserId)), None, true, None, false)
    case UnfollowAuthor => Effect(None, Some(UnfollowUser(authorId, currentUserId)), false, None, false)
  }

  /** Whatever the viewer presses on the red button, the handler matches its
      text: a delete for `Delete`, an unfollow of the author for `Unfollow`. */
  lemma RedButtonMatchesHandler(currentUserId: UserId, followingIds: seq<UserId>, authorId: UserId, postId: PostId, deleteSucceeded: bool)
    requires Render(currentUserId, followingIds, authorId, postId).redButton.Some?
    ensures var b := Render(currentUserId, followingIds, authorId, postId).redButton.value;
      var e := Press(b.1, deleteSucceeded, currentUserId, authorId, postId);
      (b.0 == "Delete" <==> e.deletePost == Some((postId, currentUserId))) &&
      (b.0 == "Unfollow" <==> e.unfollow == Some(UnfollowUser(authorId, currentUserId)))
  {
  }
}
