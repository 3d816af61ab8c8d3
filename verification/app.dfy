/**
  The application shell (src/App.js): the signed-in user's session derived
  from the `ME` subscription, the choice between the loading screen, the
  signed-out switch and the signed-in switch, and the post-modal rule that
  keeps the previous page rendered behind a post opened as a modal.

  The subscription and the router are not part of this model: the
  subscription's `loading` flag and data, the current location and the
  history action are parameters.
 */
module App {
  import opened Prelude
  import opened Auth
  import opened Routes

  // ---------------------------------------------------------------------------
  // The session

  /** A user as the `following`/`followers` edges reference them. */
  datatype UserRef = UserRef(id: string, username: string)

  /** A row of the `following` or `followers` relation. */
  datatype Edge = Edge(user: UserRef)

  /** The `ME` subscription's user row, as far as the shell reads it. */
  datatype Me = Me(id: string, username: string, following: seq<Edge>, followers: seq<Edge>)

  /** The value of `UserContext`. */
  datatype Session = Session(
    me: Me,
    currentUserId: string,
    followingIds: seq<string>,
    followersIds: seq<string>,
    feedIds: seq<string>)

  /** `edges.map(({ user }) => user.id)`. */
  function UserIds(edges: seq<Edge>): (ids: seq<string>)
    ensures |ids| == |edges|
    ensures forall i :: 0 <= i < |edges| ==> ids[i] == edges[i].user.id
  {
    seq(|edges|, i requires 0 <= i < |edges| => edges[i].user.id)
  }

  /** `[...followingIds, currentUserId]`: the followed users in order, then the user. */
  function FeedIds(me: Me): (ids: seq<string>)
    ensures |ids| == |me.following| + 1
    ensures ids[..|me.following|] == UserIds(me.following)
    ensures ids[|ids| - 1] == me.id
  {
    UserIds(me.following) + [me.id]
  }

  /** The feed covers exactly the user and the users they follow. */
  lemma FeedIdsMembership(me: Me, u: string)
    ensures u in FeedIds(me) <==> u == me.id || exists i :: 0 <= i < |me.following| && me.following[i].user.id == u
  {
    var ids := FeedIds(me);
    if u in ids {
      var k :| 0 <= k < |ids| && ids[k] == u;
      if k < |me.following| {
        assert ids[..|me.following|][k] == u;
      }
    }
    if exists i :: 0 <= i < |me.following| && me.following[i].user.id == u {
      var i :| 0 <= i < |me.following| && me.following[i].user.id == u;
      assert ids[..|me.following|][i] == u;
      assert ids[i] == u;
    }
  }

  /** `data.users[0]` and the derived ids; `None` stands for the TypeError
      raised when the data is absent or holds no user row. */
  function DeriveSession(users: Option<seq<Me>>): (r: Option<Session>)
    ensures r.Some? <==> users.Some? && |users.value| > 0
    ensures r.Some? ==>
      && r.value.me == users.value[0]
      && r.value.currentUserId == users.value[0].id
      && r.value.followingIds == UserIds(users.value[0].following)
      && r.value.followersIds == UserIds(users.value[0].followers)
      && r.value.feedIds == r.value.followingIds + [r.value.currentUserId]
  {
    if users.None? || |users.value| == 0 then None
    else
      var me := users.value[0];
      Some(Session(me, me.id, UserIds(me.following), UserIds(me.followers), FeedIds(me)))
  }

  // ---------------------------------------------------------------------------
  // Locations and the post modal

  /** A history entry: its path, its unique key, and `state.modal`. */
  datatype Location = Location(path: string, key: string, modal: bool)

  datatype HistoryAction = Push | Replace | Pop

  /** The current location, `prevLocation.current`, and whether the two are
      the very same object. The router hands out a new location object on
      every navigation, a POP back to an earlier entry included, so only a
      render without navigation after the effect stored the location sees
      the stored object again. */
  datatype Router = Router(location: Location, prev: Location, sameObject: bool)

  /** `useRef(location)`: the first location is itself the previous location. */
  function InitialRouter(loc: Location): (r: Router)
    ensures r.location == r.prev == loc && r.sameObject
  {
    Router(loc, loc, true)
  }

  /** `modal && prevLocation.current !== location`. */
  predicate IsModalOpen(r: Router)
  {
    r.location.modal && !r.sameObject
  }

  /** The location the main switch renders: the previous one while a modal is open. */
  function SwitchLocation(r: Router): (loc: Location)
    ensures IsModalOpen(r) ==> loc == r.prev
    ensures !IsModalOpen(r) ==> loc == r.location
  {
    if IsModalOpen(r) then r.prev else r.location
  }

  /** The effect after a render: `prevLocation` follows the location unless the
      navigation was a POP or the location asks for a modal. */
  function RememberLocation(r: Router, action: HistoryAction): (r': Router)
    ensures r'.location == r.location
    ensures r'.prev == (if action != Pop && !r.location.modal then r.location else r.prev)
    ensures r'.sameObject <==> r.sameObject || (action != Pop && !r.location.modal)
  {
    if action != Pop && !r.location.modal then r.(prev := r.location, sameObject := true) else r
  }

  /** A navigation: the new location object is rendered with the old previous
      location, then the effect runs. The first component is what is rendered. */
  function Navigate(r: Router, action: HistoryAction, loc: Location): (step: (Router, Router))
    ensures step.0 == Router(loc, r.prev, false)
    ensures step.1 == RememberLocation(step.0, action)
  {
    var rendered := Router(loc, r.prev, false);
    (rendered, RememberLocation(rendered, action))
  }

  /** The first render never shows a modal, whatever the location's state. */
  lemma FirstRenderHasNoModal(loc: Location)
    ensures !IsModalOpen(InitialRouter(loc))
    ensures SwitchLocation(InitialRouter(loc)) == loc
  {
  }

  /** After a navigation the modal is open exactly when the new location asks
      for one: the new object is never the remembered one. */
  lemma NavigationOpensModalIffFlag(r: Router, action: HistoryAction, loc: Location)
    ensures IsModalOpen(Navigate(r, action, loc).0) <==> loc.modal
    ensures SwitchLocation(Navigate(r, action, loc).0) == if loc.modal then r.prev else loc
  {
  }

  /** Opening a post as a modal keeps the previous page behind it: the switch
      renders the old location, and the previous location is not replaced. */
  lemma ModalKeepsBackground(r: Router, action: HistoryAction, loc: Location)
    requires loc.modal
    ensures IsModalOpen(Navigate(r, action, loc).0)
    ensures SwitchLocation(Navigate(r, action, loc).0) == r.prev
    ensures Navigate(r, action, loc).1.prev == r.prev
  {
  }

  /** Returning to the remembered location closes the modal, unless that
      location itself carries the modal flag. Only a first location opened with
      `state.modal` can: `RememberedLocationIsNeverModal` shows no other
      remembered location has the flag. Then the returned-to location is a new
      object, so the modal stays open over the same page. */
  lemma BackToPreviousClosesModal(r: Router, action: HistoryAction)
    ensures IsModalOpen(Navigate(r, action, r.prev).0) <==> r.prev.modal
    ensures SwitchLocation(Navigate(r, action, r.prev).0) == r.prev
  {
  }

  /** Replay a sequence of navigations, returning the state after each effect. */
  function Run(r: Router, steps: seq<(HistoryAction, Location)>): Router
    decreases |steps|
  {
    if |steps| == 0 then r
    else Run(Navigate(r, steps[0].0, steps[0].1).1, steps[1..])
  }

  /** After any navigations, the remembered location is the one it started
      with or a location reached by a non-POP navigation without a modal flag;
      so, starting from a location without the flag, it never has the flag. */
  lemma {:induction false} RememberedLocationIsNeverModal(r: Router, steps: seq<(HistoryAction, Location)>)
    ensures var p := Run(r, steps).prev;
      p == r.prev || exists i :: 0 <= i < |steps| && steps[i].1 == p && steps[i].0 != Pop && !steps[i].1.modal
    ensures !r.prev.modal ==> !Run(r, steps).prev.modal
    decreases |steps|
  {
    if |steps| > 0 {
      var next := Navigate(r, steps[0].0, steps[0].1).1;
      RememberedLocationIsNeverModal(next, steps[1..]);
      var p := Run(r, steps).prev;
      if p != r.prev && p != next.prev {
        var i :| 0 <= i < |steps[1..]| && steps[1..][i].1 == p && steps[1..][i].0 != Pop && !steps[1..][i].1.modal;
        assert steps[i + 1] == steps[1..][i];
      }
    }
  }

  // ---------------------------------------------------------------------------
  // What the shell renders

  datatype AppView =
    | LoadingScreen
    | SignedOutPage(page: Page)
    | SessionMissing
    | SignedInPage(session: Session, page: Page, modalPostId: Option<string>)

  /** The overlay route `exact path='/p/:postId'`, matched against the real location. */
  function ModalPostId(path: string): (r: Option<string>)
    ensures r.Some? <==> |SplitPath(path)| == 2 && SplitPath(path)[0] == "p"
    ensures r.Some? ==> r.value == SplitPath(path)[1]
  {
    var segs := SplitPath(path);
    if |segs| == 2 && segs[0] == "p" then Some(segs[1]) else None
  }

  /** The shell's render. */
  function RenderApp(auth: AuthState, loading: bool, users: Option<seq<Me>>, r: Router): (v: AppView)
    ensures loading <==> v.LoadingScreen?
    ensures !loading && !auth.SignedIn? ==> v == SignedOutPage(ResolveUnauthenticated(SplitPath(r.location.path)))
    ensures v.SignedInPage? ==>
      && auth.SignedIn?
      && Some(v.session) == DeriveSession(users)
      && v.page == ResolveAuthenticated(SplitPath(SwitchLocation(r).path))
      && (v.modalPostId.Some? <==>
            IsModalOpen(r) && |SplitPath(r.location.path)| == 2 && SplitPath(r.location.path)[0] == "p")
      && (v.modalPostId.Some? ==> v.modalPostId.value == SplitPath(r.location.path)[1])
    ensures !loading && auth.SignedIn? ==> (v.SessionMissing? <==> DeriveSession(users).None?)
    ensures !loading && auth.SignedIn? && DeriveSession(users).Some? ==> v.SignedInPage?
  {
    if loading then LoadingScreen
    else if !auth.SignedIn? then SignedOutPage(ResolveUnauthenticated(SplitPath(r.location.path)))
    else
      match DeriveSession(users)
      case None => SessionMissing
      case Some(session) =>
        var page := ResolveAuthenticated(SplitPath(SwitchLocation(r).path));
        var overlay := if IsModalOpen(r) then ModalPostId(r.location.path) else None;
        SignedInPage(session, page, overlay)
  }

  /** With a post opened as a modal over a page, the page stays and the post is
      shown on top of it. */
  lemma ModalRendersPostOverBackground(auth: AuthState, users: Option<seq<Me>>, r: Router, postId: string)
    requires auth.SignedIn? && users.Some? && |users.value| > 0
    requires IsModalOpen(r)
    requires SplitPath(r.location.path) == ["p", postId]
    ensures RenderApp(auth, false, users, r).page == ResolveAuthenticated(SplitPath(r.prev.path))
    ensures RenderApp(auth, false, users, r).modalPostId == Some(postId)
  {
  }

  /** Without a modal, a post path opens the full post page and nothing is overlaid. */
  lemma PostPathWithoutModal(auth: AuthState, users: Option<seq<Me>>, r: Router, postId: string)
    requires auth.SignedIn? && users.Some? && |users.value| > 0
    requires !r.location.modal
    requires SplitPath(r.location.path) == ["p", postId]
    ensures RenderApp(auth, false, users, r).page == PostPage(postId)
    ensures RenderApp(auth, false, users, r).modalPostId.None?
  {
    AuthenticatedRouting(["p", postId]);
  }
}
