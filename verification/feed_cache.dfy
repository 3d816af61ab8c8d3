/**
  The cache patches of the feed card (src/components/feed/FeedPost.js).
  After a like/unlike mutation and after a new comment, the card rewrites
  the cached feed query result; the cache is modelled here as the list of
  cached posts, read in and written back by pure functions.
 */
module FeedCache {
  import opened Prelude
  import opened Posts
  import opened PostButtons

  /** The `__typename` the like mutation's `insert_likes` field carries. */
  const LikesMutationResponse: string := "likes_mutation_response"

  /** The count change a like/unlike result implies: +1 iff `insert_likes`
      is present with the like mutation's type name, otherwise -1. */
  function LikeDelta(insertLikesTypename: Option<string>): (d: int)
    ensures d == 1 || d == -1
    ensures d == 1 <==> insertLikesTypename == Some(LikesMutationResponse)
  {
    if insertLikesTypename == Some(LikesMutationResponse) then 1 else -1
  }

  /** What each mutation's result carries in `insert_likes.__typename`: the
      like mutation inserts a row, the unlike mutation has no `insert_likes`. */
  function ResultTypename(m: LikeMutation): (t: Option<string>)
    ensures LikeDelta(t) == (if m == LikePost then 1 else -1)
  {
    match m
    case LikePost => Some(LikesMutationResponse)
    case UnlikePost => None
  }

  /** A post with its cached like count moved by `delta`. */
  function ShiftLikes(p: Post, delta: int): Post
  {
    p.(likeCount := p.likeCount + delta)
  }

  /** `LikeButton.handleUpdate` as written: the delta is added to EVERY cached
      post, whichever post was liked. */
  function LikeCacheUpdateAsWritten(posts: seq<Post>, insertLikesTypename: Option<string>): (r: seq<Post>)
    ensures |r| == |posts|
    ensures forall i :: 0 <= i < |r| ==> r[i] == ShiftLikes(posts[i], LikeDelta(insertLikesTypename))
  {
    if |posts| == 0 then []
    else [ShiftLikes(posts[0], LikeDelta(insertLikesTypename))] + LikeCacheUpdateAsWritten(posts[1..], insertLikesTypename)
  }

  /** As written, one like moves the total of all cached like counts by the
      number of cached posts, not by one. */
  lemma {:induction false} AsWrittenShiftsEveryPost(posts: seq<Post>, t: Option<string>)
    ensures TotalLikes(LikeCacheUpdateAsWritten(posts, t)) == TotalLikes(posts) + |posts| * LikeDelta(t)
  {
    if |posts| > 0 {
      AsWrittenShiftsEveryPost(posts[1..], t);
      assert LikeCacheUpdateAsWritten(posts, t)[1..] == LikeCacheUpdateAsWritten(posts[1..], t);
    }
  }

  /** A concrete feed of two posts: liking the first also raises the second's count. */
  lemma AsWrittenLikeRaisesUnrelatedPost()
    ensures
      var p1 := Post("p1", "u1", "", "", 100, 10, 0, [], [], []);
      var p2 := Post("p2", "u2", "", "", 90, 3, 0, [], [], []);
      var after := LikeCacheUpdateAsWritten([p1, p2], ResultTypename(LikePost));
      after[1].id == "p2" && after[1].likeCount == 4 &&
      LikeCacheUpdate([p1, p2], "p1", ResultTypename(LikePost))[1] == p2
  {
  }

  /** The like-cache patch as evidently intended: only the post whose id is the
      liked post's id has its count moved; every other post is returned unchanged. */
  function LikeCacheUpdate(posts: seq<Post>, postId: PostId, insertLikesTypename: Option<string>): (r: seq<Post>)
    ensures |r| == |posts|
    ensures forall i :: 0 <= i < |r| && posts[i].id == postId ==>
      r[i] == ShiftLikes(posts[i], LikeDelta(insertLikesTypename))
    ensures forall i :: 0 <= i < |r| && posts[i].id != postId ==> r[i] == posts[i]
  {
    if |posts| == 0 then []
    else
      var head := if posts[0].id == postId then ShiftLikes(posts[0], LikeDelta(insertLikesTypename)) else posts[0];
      [head] + LikeCacheUpdate(posts[1..], postId, insertLikesTypename)
  }

  /** The intended patch moves the total by the delta once per post with that id. */
  lemma {:induction false} LikeCacheUpdateTotal(posts: seq<Post>, postId: PostId, t: Option<string>)
    ensures TotalLikes(LikeCacheUpdate(posts, postId, t)) == TotalLikes(posts) + CountId(posts, postId) * LikeDelta(t)
  {
    if |posts| > 0 {
      LikeCacheUpdateTotal(posts[1..], postId, t);
      assert LikeCacheUpdate(posts, postId, t)[1..] == LikeCacheUpdate(posts[1..], postId, t);
    }
  }

  /** A like confirmed and then an unlike confirmed leave the cache as it was. */
  lemma LikeThenUnlikeRestores(posts: seq<Post>, postId: PostId)
    ensures LikeCacheUpdate(LikeCacheUpdate(posts, postId, ResultTypename(LikePost)), postId, ResultTypename(UnlikePost)) == posts
  {
    var once := LikeCacheUpdate(posts, postId, ResultTypename(LikePost));
    var twice := LikeCacheUpdate(once, postId, ResultTypename(UnlikePost));
    assert forall i :: 0 <= i < |posts| ==> twice[i] == posts[i];
  }

  /** The patch as written also returns the cache to where it was after a like
      and an unlike: each post moves up by one and back down by one. */
  lemma LikeThenUnlikeRestoresAsWritten(posts: seq<Post>)
    ensures LikeCacheUpdateAsWritten(LikeCacheUpdateAsWritten(posts, ResultTypename(LikePost)), ResultTypename(UnlikePost)) == posts
  {
    var once := LikeCacheUpdateAsWritten(posts, ResultTypename(LikePost));
    var twice := LikeCacheUpdateAsWritten(once, ResultTypename(UnlikePost));
    assert forall i :: 0 <= i < |posts| ==> twice[i] == posts[i];
  }

  /** Local like state and cached feed after `n` clicks on one post's like
      button, each mutation's cache patch applied in click order. */
  datatype LikeSession = LikeSession(liked: bool, posts: seq<Post>)

  function ClickAndPatch(s: LikeSession, postId: PostId): LikeSession
  {
    var click := ClickLike(s.liked);
    LikeSession(click.liked, LikeCacheUpdate(s.posts, postId, ResultTypename(click.mutation)))
  }

  function ClickAndPatchN(s: LikeSession, postId: PostId, n: nat): LikeSession
  {
    if n == 0 then s else ClickAndPatch(ClickAndPatchN(s, postId, n - 1), postId)
  }

  /** The same click sequence with the patch as written. */
  function ClickAndPatchAsWritten(s: LikeSession): LikeSession
  {
    var click := ClickLike(s.liked);
    LikeSession(click.liked, LikeCacheUpdateAsWritten(s.posts, ResultTypename(click.mutation)))
  }

  function ClickAndPatchNAsWritten(s: LikeSession, n: nat): LikeSession
  {
    if n == 0 then s else ClickAndPatchAsWritten(ClickAndPatchNAsWritten(s, n - 1))
  }

  /** The net count change that `n` clicks produce from an initial state. */
  function NetLikeChange(liked: bool, n: nat): int
  {
    if n % 2 == 0 then 0 else if liked then -1 else 1
  }

  /** After `n` clicks, the liked flag is the parity of `n` applied to the start,
      the liked post's cached count differs by +1 if the clicks netted a like,
      -1 if they netted an unlike and 0 otherwise, and no other post changes. */
  lemma {:induction false} ClickSequenceNetEffect(s: LikeSession, postId: PostId, n: nat)
    ensures ClickAndPatchN(s, postId, n).liked == (if n % 2 == 0 then s.liked else !s.liked)
    ensures |ClickAndPatchN(s, postId, n).posts| == |s.posts|
    ensures forall i :: 0 <= i < |s.posts| ==>
      ClickAndPatchN(s, postId, n).posts[i] ==
        if s.posts[i].id == postId then ShiftLikes(s.posts[i], NetLikeChange(s.liked, n)) else s.posts[i]
  {
    if n > 0 {
      ClickSequenceNetEffect(s, postId, n - 1);
    }
  }

  /** With the patch as written, `n` clicks on one post's button move EVERY
      cached post by the net change, whatever its id; the liked flag follows
      the parity of `n` as with the corrected patch. */
  lemma {:induction false} ClickSequenceNetEffectAsWritten(s: LikeSession, n: nat)
    ensures ClickAndPatchNAsWritten(s, n).liked == (if n % 2 == 0 then s.liked else !s.liked)
    ensures |ClickAndPatchNAsWritten(s, n).posts| == |s.posts|
    ensures forall i :: 0 <= i < |s.posts| ==>
      ClickAndPatchNAsWritten(s, n).posts[i] == ShiftLikes(s.posts[i], NetLikeChange(s.liked, n))
  {
    if n > 0 {
      ClickSequenceNetEffectAsWritten(s, n - 1);
    }
  }

  /** One post after the comment patch: the post whose id is `postId` gets the
      comment appended and its count raised by one; any other post is kept. */
  function AddComment(p: Post, postId: PostId, newComment: Comment): (r: Post)
    ensures p.id != postId ==> r == p
    ensures p.id == postId ==>
      && r.comments == p.comments + [newComment]
      && r.comments[..|p.comments|] == p.comments
      && r.comments[|r.comments| - 1] == newComment
      && r.commentCount == p.commentCount + 1
      && r.(comments := p.comments, commentCount := p.commentCount) == p
  {
    if p.id == postId then p.(comments := p.comments + [newComment], commentCount := p.commentCount + 1) else p
  }

  /** `Comment.handleUpdate`: every cached post goes through `AddComment`, so
      only the post whose id is `postId` changes, and the order is kept. */
  function CommentCacheUpdate(posts: seq<Post>, postId: PostId, newComment: Comment): (r: seq<Post>)
    ensures |r| == |posts|
    ensures forall i :: 0 <= i < |r| ==> r[i] == AddComment(posts[i], postId, newComment)
  {
    if |posts| == 0 then []
    else [AddComment(posts[0], postId, newComment)] + CommentCacheUpdate(posts[1..], postId, newComment)
  }

  /** The total cached comment count rises by one per post carrying `postId`
      (by exactly one when ids are unique and the post is loaded). */
  lemma {:induction false} CommentCacheUpdateTotal(posts: seq<Post>, postId: PostId, c: Comment)
    ensures TotalComments(CommentCacheUpdate(posts, postId, c)) == TotalComments(posts) + CountId(posts, postId)
  {
    if |posts| > 0 {
      CommentCacheUpdateTotal(posts[1..], postId, c);
      assert CommentCacheUpdate(posts, postId, c)[1..] == CommentCacheUpdate(posts[1..], postId, c);
    }
  }

  /** The feed card's comment field after its cache patch: the patched posts
      and an emptied field whose Post button is disabled again. */
  datatype CommentConfirmed = CommentConfirmed(posts: seq<Post>, content: string)

  function ConfirmFeedComment(posts: seq<Post>, postId: PostId, newComment: Comment): (r: CommentConfirmed)
    ensures r.content == "" && !CanPostComment(r.content)
    ensures TotalComments(r.posts) == TotalComments(posts) + CountId(posts, postId)
  {
    CommentCacheUpdateTotal(posts, postId, newComment);
    var cleared := "";
    assert Text.IsBlank(cleared);
    CommentConfirmed(CommentCacheUpdate(posts, postId, newComment), cleared)
  }
}
