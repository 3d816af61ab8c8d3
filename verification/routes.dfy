/**
  The route tables of src/App.js. A location's path is split into its
  non-empty `/`-separated segments and matched against the routes in order;
  the first route whose pattern matches decides the page (`<Switch>` renders
  its first matching child). `exact` routes must match every segment; the
  others match any path that starts with their segments.
 */
module Routes {
  import opened Prelude

  // ---------------------------------------------------------------------------
  // Paths and segments

  /** A path segment: non-empty and free of `/`. */
  predicate IsSegment(s: string)
  {
    |s| > 0 && '/' !in s
  }

  /** Length of the leading run of non-`/` characters. */
  function SegmentLength(s: string): (n: nat)
    ensures n <= |s|
    ensures forall i :: 0 <= i < n ==> s[i] != '/'
    ensures n < |s| ==> s[n] == '/'
  {
    if |s| == 0 || s[0] == '/' then 0 else 1 + SegmentLength(s[1..])
  }

  /** The non-empty segments of a path, in order. */
  function SplitPath(path: string): (segs: seq<string>)
    ensures forall i :: 0 <= i < |segs| ==> IsSegment(segs[i])
    decreases |path|
  {
    if |path| == 0 then []
    else if path[0] == '/' then SplitPath(path[1..])
    else
      var n := SegmentLength(path);
      [path[..n]] + SplitPath(path[n..])
  }

  /** The path `/s1/s2/.../sn` of a list of segments (`/` for none). */
  function JoinPath(segs: seq<string>): string
  {
    if |segs| == 0 then "/" else Joined(segs)
  }

  function Joined(segs: seq<string>): string
  {
    if |segs| == 0 then "" else "/" + segs[0] + Joined(segs[1..])
  }

  lemma {:induction false} SegmentLengthOf(seg: string, rest: string)
    requires IsSegment(seg)
    requires |rest| == 0 || rest[0] == '/'
    ensures SegmentLength(seg + rest) == |seg|
    decreases |seg|
  {
    if |seg| > 1 {
      assert (seg + rest)[1..] == seg[1..] + rest;
      assert seg[0] in seg;
      assert forall c :: c in seg[1..] ==> c in seg;
      SegmentLengthOf(seg[1..], rest);
    } else {
      assert seg[0] in seg;
      assert (seg + rest)[1..] == rest;
    }
  }

  /** Splitting a joined list of segments gives the segments back. */
  lemma {:induction false} SplitJoinRoundTrip(segs: seq<string>)
    requires forall i :: 0 <= i < |segs| ==> IsSegment(segs[i])
    ensures SplitPath(JoinPath(segs)) == segs
  {
    if |segs| == 0 {
      assert SplitPath("/") == SplitPath("");
    } else {
      SplitJoinedRoundTrip(segs);
    }
  }

  lemma {:induction false} SplitJoinedRoundTrip(segs: seq<string>)
    requires forall i :: 0 <= i < |segs| ==> IsSegment(segs[i])
    ensures SplitPath(Joined(segs)) == segs
  {
    if |segs| > 0 {
      var seg := segs[0];
      var rest := Joined(segs[1..]);
      var p := "/" + seg + rest;
      assert p[1..] == seg + rest;
      assert |rest| == 0 || rest[0] == '/';
      SegmentLengthOf(seg, rest);
      assert (seg + rest)[..|seg|] == seg;
      assert (seg + rest)[|seg|..] == rest;
      SplitJoinedRoundTrip(segs[1..]);
      assert segs == [seg] + segs[1..];
    }
  }

  // ---------------------------------------------------------------------------
  // Patterns and first-match resolution

  /** A pattern segment: a literal or a `:param`. */
  datatype PatternSegment = Lit(text: string) | Param

  /** A `<Route path=... exact?>`, or the catch-all `path='*'`. */
  datatype Pattern = Pattern(segments: seq<PatternSegment>, exact: bool) | CatchAll

  predicate SegmentMatches(p: PatternSegment, s: string)
  {
    match p
    case Lit(t) => s == t
    case Param => true
  }

  /** `pattern` matches `path`: every pattern segment matches the path's segment
      at the same position, and an exact pattern uses up the whole path. */
  predicate Matches(pattern: Pattern, path: seq<string>)
  {
    match pattern
    case CatchAll => true
    case Pattern(segs, exact) =>
      && (if exact then |path| == |segs| else |path| >= |segs|)
      && forall i :: 0 <= i < |segs| ==> SegmentMatches(segs[i], path[i])
  }

  /** The index of the first pattern that matches, if any. */
  function FirstMatch(patterns: seq<Pattern>, path: seq<string>): (r: Option<nat>)
    ensures r.Some? ==> r.value < |patterns| && Matches(patterns[r.value], path)
    ensures r.Some? ==> forall j :: 0 <= j < r.value ==> !Matches(patterns[j], path)
    ensures r.None? <==> forall j :: 0 <= j < |patterns| ==> !Matches(patterns[j], path)
  {
    if |patterns| == 0 then None
    else if Matches(patterns[0], path) then Some(0)
    else
      match FirstMatch(patterns[1..], path)
      case None => None
      case Some(k) => Some(k + 1)
  }

  // ---------------------------------------------------------------------------
  // The application's pages and route tables

  datatype Page =
    | FeedPage
    | ExplorePage
    | ProfilePage(username: string)
    | PostPage(postId: string)
    | EditProfilePage
    | LoginPage
    | SignupPage
    | NotFoundPage
    | RedirectToLogin

  /** The authenticated `<Switch>`, in order. */
  const AuthenticatedPatterns: seq<Pattern> := [
    Pattern([], true),                                  // exact '/'
    Pattern([Lit("explore")], false),                   // '/explore'
    Pattern([Param], true),                             // exact '/:username'
    Pattern([Lit("p"), Param], true),                   // exact '/p/:postId'
    Pattern([Lit("accounts"), Lit("edit")], true),      // exact '/accounts/edit'
    Pattern([Lit("accounts"), Lit("login")], true),     // exact '/accounts/login'
    Pattern([Lit("accounts"), Lit("emailsignup")], true), // exact '/accounts/emailsignup'
    CatchAll                                            // '*'
  ]

  /** The page rendered by the route at `index` of the authenticated switch. */
  function AuthenticatedPageAt(index: nat, path: seq<string>): Page
    requires index < |AuthenticatedPatterns| && Matches(AuthenticatedPatterns[index], path)
  {
    if index == 0 then FeedPage
    else if index == 1 then ExplorePage
    else if index == 2 then ProfilePage(path[0])
    else if index == 3 then PostPage(path[1])
    else if index == 4 then EditProfilePage
    else if index == 5 then LoginPage
    else if index == 6 then SignupPage
    else NotFoundPage
  }

  /** The authenticated switch: the first matching route's page. */
  function ResolveAuthenticated(path: seq<string>): Page
  {
    match FirstMatch(AuthenticatedPatterns, path)
    case Some(i) => AuthenticatedPageAt(i, path)
    case None => NotFoundPage
  }

  /** What the authenticated switch renders, path shape by path shape: the
      feed at `/`; the explore page for `/explore` and everything below it, so
      a single segment `explore` never reaches a profile; a profile for any
      other single segment; a post for `/p/<id>`; the account pages; and the
      not-found page for everything else. */
  lemma AuthenticatedRouting(path: seq<string>)
    ensures |path| == 0 ==> ResolveAuthenticated(path) == FeedPage
    ensures |path| >= 1 && path[0] == "explore" ==> ResolveAuthenticated(path) == ExplorePage
    ensures |path| == 1 && path[0] != "explore" ==> ResolveAuthenticated(path) == ProfilePage(path[0])
    ensures |path| == 2 && path[0] == "p" ==> ResolveAuthenticated(path) == PostPage(path[1])
    ensures path == ["accounts", "edit"] ==> ResolveAuthenticated(path) == EditProfilePage
    ensures path == ["accounts", "login"] ==> ResolveAuthenticated(path) == LoginPage
    ensures path == ["accounts", "emailsignup"] ==> ResolveAuthenticated(path) == SignupPage
    ensures (|path| >= 3 && path[0] != "explore") ||
            (|path| == 2 && path[0] != "p" && path[0] != "explore" &&
             path != ["accounts", "edit"] && path != ["accounts", "login"] && path != ["accounts", "emailsignup"])
            ==> ResolveAuthenticated(path) == NotFoundPage
  {
    var r := FirstMatch(AuthenticatedPatterns, path);
    assert Matches(AuthenticatedPatterns[7], path);
    if |path| >= 1 && path[0] == "explore" {
      assert Matches(AuthenticatedPatterns[1], path);
    }
    if |path| == 1 {
      assert Matches(AuthenticatedPatterns[2], path);
    }
    if |path| == 2 && path[0] == "p" {
      assert Matches(AuthenticatedPatterns[3], path);
    }
    if path == ["accounts", "edit"] {
      assert Matches(AuthenticatedPatterns[4], path);
    }
    if path == ["accounts", "login"] {
      assert Matches(AuthenticatedPatterns[5], path);
    }
    if path == ["accounts", "emailsignup"] {
      assert Matches(AuthenticatedPatterns[6], path);
    }
  }

  /** The signed-out switch: only the login and sign-up routes (which match
      their path and anything below it); everything else redirects to login. */
  const UnauthenticatedPatterns: seq<Pattern> := [
    Pattern([Lit("accounts"), Lit("login")], false),
    Pattern([Lit("accounts"), Lit("emailsignup")], false)
  ]

  function ResolveUnauthenticated(path: seq<string>): (page: Page)
    ensures page == LoginPage || page == SignupPage || page == RedirectToLogin
    ensures page == LoginPage <==> |path| >= 2 && path[0] == "accounts" && path[1] == "login"
    ensures page == SignupPage <==> |path| >= 2 && path[0] == "accounts" && path[1] == "emailsignup"
  {
    match FirstMatch(UnauthenticatedPatterns, path)
    case Some(0) => LoginPage
    case Some(_) => SignupPage
    case None =>
      assert !Matches(UnauthenticatedPatterns[1], path);
      RedirectToLogin
  }

  /** The profile link `/` ++ username of a username without `/` opens that
      profile, unless the username is `explore`, which the explore route shadows. */
  lemma ProfileLinkResolves(username: string)
    requires IsSegment(username)
    ensures SplitPath("/" + username) == [username]
    ensures username != "explore" ==> ResolveAuthenticated(SplitPath("/" + username)) == ProfilePage(username)
    ensures username == "explore" ==> ResolveAuthenticated(SplitPath("/" + username)) == ExplorePage
  {
    SplitJoinRoundTrip([username]);
    assert [username][1..] == [];
    assert Joined([username]) == "/" + username + Joined([]);
    assert "/" + username + "" == "/" + username;
    AuthenticatedRouting([username]);
  }
}
