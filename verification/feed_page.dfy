/**
  Infinite scrolling of the home feed (src/pages/feed.js). The first page is
  queried with a page size of 2; whenever the page bottom is reached and data
  is present, another page older than the last loaded post is requested and
  merged by `handleUpdateQuery`. An empty page sets the one-way `endOfFeed`
  flag, which only hides the loading icon.

  The code has no in-flight guard and no de-duplication by post id, and
  `endOfFeed` is not consulted before fetching; the model has none either.
 */
module FeedPage {
  import opened Prelude
  import opened Posts

  /** The fixed `limit` of every feed request. */
  const PageSize: nat := 2

  /** The shape of the feed query result. */
  datatype FeedData = FeedData(posts: seq<Post>)

  /** The page's state: the query result (absent while loading) and `endOfFeed`. */
  datatype FeedState = FeedState(data: Option<FeedData>, endOfFeed: bool)

  const Initial: FeedState := FeedState(None, false)

  /** The variables of a fetch-more request. */
  datatype FetchMore = FetchMore(limit: nat, feedIds: seq<UserId>, lastTimestamp: int)

  /** What the scroll effect does: nothing, a fetch-more request, or the
      TypeError raised when `data.posts` is empty and has no last element. */
  datatype FetchDecision = NoFetch | Fetch(request: FetchMore) | CursorOfEmptyFeed

  /** The scroll effect: fetch only at the page bottom with data present, with
      the session's feed ids, page size 2, and the cursor taken from the last
      loaded post's `created_at`. */
  function ScrollEffect(isPageBottom: bool, data: Option<FeedData>, feedIds: seq<UserId>): (d: FetchDecision)
    ensures d.Fetch? <==> isPageBottom && data.Some? && |data.value.posts| > 0
    ensures d.CursorOfEmptyFeed? <==> isPageBottom && data.Some? && |data.value.posts| == 0
    ensures d.Fetch? ==>
      var posts := data.value.posts;
      d.request == FetchMore(PageSize, feedIds, posts[|posts| - 1].createdAt)
  {
    if !isPageBottom || data.None? then NoFetch
    else if |data.value.posts| == 0 then CursorOfEmptyFeed
    else
      var posts := data.value.posts;
      Fetch(FetchMore(PageSize, feedIds, posts[|posts| - 1].createdAt))
  }

  /** The scroll effect does not look at `endOfFeed`: a page-bottom event after
      the end of the feed still requests another page. */
  lemma ScrollEffectIgnoresEndOfFeed(data: FeedData, feedIds: seq<UserId>)
    requires |data.posts| > 0
    ensures ScrollEffect(true, Some(data), feedIds).Fetch?
  {
  }

  /** The result of `handleUpdateQuery` together with the `endOfFeed` flag it may set. */
  datatype Merged = Merged(data: FeedData, endOfFeed: bool)

  /** `handleUpdateQuery(prev, { fetchMoreResult })`: an empty page keeps the
      previous result and sets `endOfFeed`; otherwise the page is appended. */
  function HandleUpdateQuery(prev: FeedData, fetched: FeedData, endOfFeed: bool): (r: Merged)
    ensures |fetched.posts| == 0 ==> r.data == prev && r.endOfFeed
    ensures |fetched.posts| > 0 ==>
      && r.endOfFeed == endOfFeed
      && |r.data.posts| == |prev.posts| + |fetched.posts|
      && r.data.posts[..|prev.posts|] == prev.posts
      && r.data.posts[|prev.posts|..] == fetched.posts
    ensures endOfFeed ==> r.endOfFeed
  {
    if |fetched.posts| == 0 then Merged(prev, true)
    else Merged(FeedData(prev.posts + fetched.posts), endOfFeed)
  }

  /** After a non-empty page is merged the next cursor is that page's oldest post. */
  lemma CursorAdvancesToFetchedPage(prev: FeedData, fetched: FeedData, feedIds: seq<UserId>)
    requires |fetched.posts| > 0
    ensures ScrollEffect(true, Some(HandleUpdateQuery(prev, fetched, false).data), feedIds)
      == Fetch(FetchMore(PageSize, feedIds, fetched.posts[|fetched.posts| - 1].createdAt))
  {
    var merged := HandleUpdateQuery(prev, fetched, false).data.posts;
    assert merged[|merged| - 1] == fetched.posts[|fetched.posts| - 1];
  }

  /** The loading icon at the bottom of the feed is shown iff `endOfFeed` is false. */
  function ShowsLoadingIcon(s: FeedState): bool
  {
    !s.endOfFeed
  }

  /** Merge a sequence of fetched pages, in arrival order, into a loaded feed. */
  function Replay(data: FeedData, endOfFeed: bool, pages: seq<FeedData>): Merged
    decreases |pages|
  {
    if |pages| == 0 then Merged(data, endOfFeed)
    else
      var step := HandleUpdateQuery(data, pages[0], endOfFeed);
      Replay(step.data, step.endOfFeed, pages[1..])
  }

  /** All posts of a sequence of pages, in page order. */
  function AllPosts(pages: seq<FeedData>): seq<Post>
  {
    if |pages| == 0 then [] else pages[0].posts + AllPosts(pages[1..])
  }

  /** Merging pages yields the loaded posts followed by every fetched post in
      order; `endOfFeed` ends true iff it started true or some page was empty,
      so it is monotone and the loading icon disappears for good after the
      first empty page. */
  lemma {:induction false} ReplayEffect(data: FeedData, endOfFeed: bool, pages: seq<FeedData>)
    ensures Replay(data, endOfFeed, pages).data.posts == data.posts + AllPosts(pages)
    ensures Replay(data, endOfFeed, pages).endOfFeed <==>
      endOfFeed || exists i :: 0 <= i < |pages| && |pages[i].posts| == 0
    ensures ShowsLoadingIcon(FeedState(Some(Replay(data, endOfFeed, pages).data), Replay(data, endOfFeed, pages).endOfFeed)) <==>
      !endOfFeed && forall i :: 0 <= i < |pages| ==> |pages[i].posts| > 0
    decreases |pages|
  {
    if |pages| > 0 {
      var step := HandleUpdateQuery(data, pages[0], endOfFeed);
      ReplayEffect(step.data, step.endOfFeed, pages[1..]);
      assert data.posts + AllPosts(pages) == step.data.posts + AllPosts(pages[1..]) by {
        if |pages[0].posts| == 0 {
          assert AllPosts(pages) == AllPosts(pages[1..]);
        }
      }
      assert (exists i :: 0 <= i < |pages| && |pages[i].posts| == 0) <==>
        (|pages[0].posts| == 0 || exists i :: 0 <= i < |pages[1..]| && |pages[1..][i].posts| == 0) by {
        forall i | 0 < i < |pages| ensures pages[i] == pages[1..][i - 1] { }
      }
    }
  }

  /** The feed example: pages [p5 (t=100), p4 (t=90)], then [p3 (t=80)], then an
      empty page; the cursors used are 90 and then 80, and the feed ends as
      [p5, p4, p3] with `endOfFeed` set. */
  lemma ExampleScenario(feedIds: seq<UserId>)
    ensures
      var p5 := Post("p5", "u1", "", "", 100, 0, 0, [], [], []);
      var p4 := Post("p4", "u2", "", "", 90, 0, 0, [], [], []);
      var p3 := Post("p3", "u1", "", "", 80, 0, 0, [], [], []);
      var first := FeedData([p5, p4]);
      var second := HandleUpdateQuery(first, FeedData([p3]), false);
      var third := HandleUpdateQuery(second.data, FeedData([]), second.endOfFeed);
      && ScrollEffect(true, Some(first), feedIds) == Fetch(FetchMore(2, feedIds, 90))
      && ScrollEffect(true, Some(second.data), feedIds) == Fetch(FetchMore(2, feedIds, 80))
      && third.data.posts == [p5, p4, p3]
      && third.endOfFeed
      && !ShowsLoadingIcon(FeedState(Some(third.data), third.endOfFeed))
  {
    var p5 := Post("p5", "u1", "", "", 100, 0, 0, [], [], []);
    var p4 := Post("p4", "u2", "", "", 90, 0, 0, [], [], []);
    var p3 := Post("p3", "u1", "", "", 80, 0, 0, [], [], []);
    assert [p5, p4] + [p3] == [p5, p4, p3];
  }
}
