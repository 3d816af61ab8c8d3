/**
  The like and save buttons and the comment box that the feed card
  (src/components/feed/FeedPost.js) and the post page
  (src/components/post/Post.js) both render. The two files define the same
  toggles; the only difference, the feed card's cache patch, lives in the
  FeedCache module.
 */
module PostButtons {
  import opened Prelude
  import opened Text
  import opened Posts

  /** The mutation a like-button click sends. */
  datatype LikeMutation = LikePost | UnlikePost

  /** The mutation a save-button click sends. */
  datatype SaveMutation = SavePost | UnsavePost

  /** The outcome of one click: the new local state and the mutation issued. */
  datatype LikeClick = LikeClick(liked: bool, mutation: LikeMutation)
  datatype SaveClick = SaveClick(saved: bool, mutation: SaveMutation)

  /** `useState(isAlreadyLiked)`: liked iff one of the post's like rows is the viewer's. */
  function InitiallyLiked(post: Post, viewer: UserId): (r: bool)
    ensures r <==> viewer in post.likes
  {
    AnyRowBy(post.likes, viewer)
  }

  /** `useState(isAlreadySaved)`: saved iff one of the post's saved rows is the viewer's. */
  function InitiallySaved(post: Post, viewer: UserId): (r: bool)
    ensures r <==> viewer in post.savedBy
  {
    AnyRowBy(post.savedBy, viewer)
  }

  /** `onClick = liked ? handleUnlike : handleLike`: a click sends unlike when
      liked and like otherwise, and the local state becomes the opposite. */
  function ClickLike(liked: bool): (r: LikeClick)
    ensures r.liked == !liked
    ensures r.mutation == UnlikePost <==> liked
    ensures r.liked <==> r.mutation == LikePost
  {
    if liked then LikeClick(false, UnlikePost) else LikeClick(true, LikePost)
  }

  /** `onClick = saved ? handleRemove : handleSave`. */
  function ClickSave(saved: bool): (r: SaveClick)
    ensures r.saved == !saved
    ensures r.mutation == UnsavePost <==> saved
    ensures r.saved <==> r.mutation == SavePost
  {
    if saved then SaveClick(false, UnsavePost) else SaveClick(true, SavePost)
  }

  /** The like state after `n` clicks. */
  function LikedAfter(liked: bool, n: nat): bool
  {
    if n == 0 then liked else ClickLike(LikedAfter(liked, n - 1)).liked
  }

  /** Repeated clicks alternate: after `n` clicks the button is liked iff it
      started liked and `n` is even, or started unliked and `n` is odd. */
  lemma {:induction false} LikedAfterParity(liked: bool, n: nat)
    ensures LikedAfter(liked, n) == Clicks(liked, n)
    ensures LikedAfter(liked, n) == (if n % 2 == 0 then liked else !liked)
  {
    if n > 0 {
      LikedAfterParity(liked, n - 1);
    }
    ClicksParity(liked, n);
  }

  /** The likes line under a post: `1 like` for exactly one, `N likes` otherwise. */
  function LikesLabel(count: int): (r: string)
    ensures count == 1 <==> r == "1 like"
    ensures count != 1 ==> r == IntToString(count) + " likes"
  {
    if count == 1 then "1 like" else IntToString(count) + " likes"
  }

  /** Different counts never share a label. */
  lemma LikesLabelInjective(a: int, b: int)
    requires LikesLabel(a) == LikesLabel(b)
    ensures a == b
  {
    if a != 1 && b != 1 {
      var sa := IntToString(a);
      var sb := IntToString(b);
      assert (sa + " likes")[..|sa|] == sa;
      assert |sa| == |sb|;
      assert (sb + " likes")[..|sb|] == sb;
      IntToStringInjective(a, b);
    }
  }

  /** The Post button under the comment field is enabled iff `content.trim()` is non-empty. */
  function CanPostComment(content: string): (r: bool)
    ensures r <==> !IsBlank(content)
  {
    Trim(content) != ""
  }

  /** The comment mutation's variables. */
  datatype CreateComment = CreateComment(content: string, postId: PostId, userId: UserId)

  /** The post page's `handleAddComment`: the mutation carries the typed content
      and the field is cleared at once, with no cache patch. */
  function SendCommentFromPostPage(content: string, postId: PostId, viewer: UserId): (r: (string, CreateComment))
    ensures r.0 == "" && !CanPostComment(r.0)
    ensures r.1.content == content && r.1.postId == postId && r.1.userId == viewer
  {
    var cleared := "";
    assert IsBlank(cleared);
    (cleared, CreateComment(content, postId, viewer))
  }
}
