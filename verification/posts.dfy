/**
  The post and comment records the feed query and the post subscription
  return, reduced to the fields the client logic reads or patches. Counts are
  the `likes_aggregate` / `comments_aggregate` numbers; `likes` and `savedBy`
  are the `user_id`s of the `likes` and `saved_posts` rows.
 */
module Posts {

  type UserId = string
  type PostId = string

  datatype Comment = Comment(
    id: string,
    postId: PostId,
    userId: UserId,
    username: string,
    content: string,
    createdAt: int)

  datatype Post = Post(
    id: PostId,
    authorId: UserId,
    media: string,
    caption: string,
    createdAt: int,
    likeCount: int,
    commentCount: int,
    likes: seq<UserId>,
    savedBy: seq<UserId>,
    comments: seq<Comment>)

  /** `isOwner` on the profile page and in the post options dialog: the
      viewer is the user who owns the profile or wrote the post. */
  predicate IsOwner(viewerId: UserId, ownerId: UserId)
  {
    viewerId == ownerId
  }

  /** `rows.some(({ user_id }) => user_id === viewer)`. */
  function AnyRowBy(rows: seq<UserId>, viewer: UserId): (r: bool)
    ensures r <==> exists i :: 0 <= i < |rows| && rows[i] == viewer
  {
    if |rows| == 0 then false
    else rows[0] == viewer || AnyRowBy(rows[1..], viewer)
  }

  /** Sum of the cached comment counts over a list of posts. */
  function TotalComments(posts: seq<Post>): int
  {
    if |posts| == 0 then 0 else posts[0].commentCount + TotalComments(posts[1..])
  }

  /** Sum of the cached like counts over a list of posts. */
  function TotalLikes(posts: seq<Post>): int
  {
    if |posts| == 0 then 0 else posts[0].likeCount + TotalLikes(posts[1..])
  }

  /** How many posts in the list carry the given id. */
  function CountId(posts: seq<Post>, id: PostId): nat
  {
    if |posts| == 0 then 0 else (if posts[0].id == id then 1 else 0) + CountId(posts[1..], id)
  }
}
