/**
  The links of the feed card (src/components/feed/FeedPost.js) and of the
  post page's caption (src/components/post/Post.js), and the pages the
  signed-in route table opens for them.
 */
module FeedLinks {
  import opened Routes

  /** `/p/${id}`: the comment icon and the "View all comments" link. */
  function PostLink(postId: string): string
  {
    "/p/" + postId
  }

  lemma {:induction false} PostLinkPath(postId: string)
    requires IsSegment(postId)
    ensures SplitPath(PostLink(postId)) == ["p", postId]
  {
    SplitJoinRoundTrip(["p", postId]);
    assert ["p", postId][1..] == [postId];
    assert ["p", postId][1..][1..] == [];
    assert Joined(["p", postId]) == "/p" + Joined([postId]);
    assert Joined([postId]) == "/" + postId + Joined([]);
    assert JoinPath(["p", postId]) == "/p" + "/" + postId;
    assert "/p" + "/" + postId == PostLink(postId);
  }

  /** The post link of a post id without `/` opens that post. */
  lemma PostLinkOpensPost(postId: string)
    requires IsSegment(postId)
    ensures ResolveAuthenticated(SplitPath(PostLink(postId))) == PostPage(postId)
  {
    PostLinkPath(postId);
    AuthenticatedRouting(["p", postId]);
  }

  /** The feed card's caption link to the author as written: `/p/${user.username}`. */
  function AuthorLinkAsWritten(username: string): string
  {
    PostLink(username)
  }

  /** As written, clicking the author's name above a feed caption opens the
      post page with the username as the post id, not the author's profile. */
  lemma AuthorLinkOpensPostPage(username: string)
    requires IsSegment(username)
    ensures ResolveAuthenticated(SplitPath(AuthorLinkAsWritten(username))) == PostPage(username)
    ensures !ResolveAuthenticated(SplitPath(AuthorLinkAsWritten(username))).ProfilePage?
  {
    PostLinkOpensPost(username);
  }

  /** The author link as evidently intended, and as the post page's caption and
      every comment link write it: `/${username}`. */
  function AuthorLink(username: string): string
  {
    "/" + username
  }

  /** A username that is one path segment, other than `explore`, opens its
      profile through the corrected author link. */
  lemma AuthorLinkOpensProfile(username: string)
    requires IsSegment(username) && username != "explore"
    ensures ResolveAuthenticated(SplitPath(AuthorLink(username))) == ProfilePage(username)
  {
    ProfileLinkResolves(username);
  }
}
