/**
  The navigation bar (src/components/shared/Navbar.js): the user search with
  its results tooltip, the active-icon choice for the current path, the
  notification tooltip and list toggles, and the page-load progress flag.

  The search query itself, the timer that hides the tooltip after five
  seconds and the file picker are not part of this model; the query's
  response and the timer's firing are inputs.
 */
module Navbar {
  import opened Prelude
  import opened Text
  import opened Notifications

  // ---------------------------------------------------------------------------
  // Search

  /** A row of the search query's `users`. */
  datatype SearchResult = SearchResult(id: string, username: string, name: string, profileImage: string)

  /** The search box's state. */
  datatype SearchState = SearchState(query: string, results: seq<SearchResult>, loading: bool)

  const InitialSearch: SearchState := SearchState("", [], false)

  /** `hasResults = !!query && results.length > 0`; it opens the results tooltip. */
  function HasResults(s: SearchState): bool
  {
    s.query != "" && |s.results| > 0
  }

  /** The `ILIKE` pattern sent for a query: the query between two `%`. */
  function SearchPattern(query: string): (p: string)
    ensures |p| == |query| + 2
    ensures p[0] == '%' && p[|p| - 1] == '%'
    ensures p[1..|p| - 1] == query
  {
    "%" + query + "%"
  }

  /** The search effect's outcome: the new state and the request it sends. */
  datatype SearchStep = SearchStep(state: SearchState, request: Option<string>)

  /** The search effect, given the lazy query's current data: a blank query does
      nothing; otherwise the request is sent, and the data already present (if
      any) becomes the results and ends the loading state. */
  function SearchEffect(s: SearchState, data: Option<seq<SearchResult>>): (r: SearchStep)
    ensures IsBlank(s.query) <==> r.request.None?
    ensures IsBlank(s.query) ==> r.state == s
    ensures !IsBlank(s.query) ==>
      && r.request == Some(SearchPattern(s.query))
      && r.state.query == s.query
      && (data.Some? ==> r.state.results == data.value && !r.state.loading)
      && (data.None? ==> r.state.results == s.results && r.state.loading)
  {
    if Trim(s.query) == "" then SearchStep(s, None)
    else if data.Some? then SearchStep(SearchState(s.query, data.value, false), Some(SearchPattern(s.query)))
    else SearchStep(s.(loading := true), Some(SearchPattern(s.query)))
  }

  /** After the search effect runs on a non-blank query whose response has
      arrived, the results tooltip is open exactly when some user matched. */
  lemma SearchOpensResultsIffMatches(s: SearchState, results: seq<SearchResult>)
    requires !IsBlank(s.query)
    ensures HasResults(SearchEffect(s, Some(results)).state) <==> |results| > 0
  {
  }

  /** Typing only white space after a search keeps the old results and leaves
      the results tooltip open: the effect returns before touching them. */
  lemma BlankQueryKeepsStaleResults(s: SearchState, data: Option<seq<SearchResult>>)
    requires |s.results| > 0
    ensures HasResults(SearchEffect(s.(query := " "), data).state)
  {
    var q := " ";
    assert IsJsWhitespace(q[0]);
    assert IsBlank(q);
  }

  /** Clicking a result: navigate to `/` ++ username and empty the query, which
      closes the tooltip. */
  function SelectResult(s: SearchState, result: SearchResult): (r: (string, SearchState))
    ensures r.0 == "/" + result.username
    ensures r.1.query == "" && r.1.results == s.results && !HasResults(r.1)
  {
    ("/" + result.username, s.(query := ""))
  }

  /** The clear icon (shown when not loading) empties the query. */
  function ClearQuery(s: SearchState): (r: SearchState)
    ensures r.query == "" && !HasResults(r)
    ensures r.results == s.results && r.loading == s.loading
  {
    s.(query := "")
  }

  /** The end adornment: the loading icon while loading, else the clear icon. */
  function ShowsClearIcon(s: SearchState): bool
  {
    !s.loading
  }

  // ---------------------------------------------------------------------------
  // Links

  /** Which of the link icons is drawn active for a path. */
  datatype ActiveIcons = ActiveIcons(home: bool, explore: bool, profile: bool)

  function ActiveFor(path: string, username: string): (a: ActiveIcons)
    ensures a.home <==> path == "/"
    ensures a.explore <==> path == "/explore"
    ensures a.profile <==> path == "/" + username
  {
    ActiveIcons(path == "/", path == "/explore", path == "/" + username)
  }

  /** Home and explore are never active together; with a non-empty username the
      profile link is never active with home, and it is active with explore
      exactly when the username is `explore`. */
  lemma ActiveIconsExclusive(path: string, username: string)
    requires |username| > 0
    ensures var a := ActiveFor(path, username); !(a.home && a.explore)
    ensures var a := ActiveFor(path, username); !(a.home && a.profile)
    ensures var a := ActiveFor(path, username); a.explore && a.profile <==> path == "/explore" && username == "explore"
  {
    var a := ActiveFor(path, username);
    assert |"/" + username| > 1;
    if a.explore && a.profile {
      assert ("/" + username)[1..] == username;
      assert "/explore"[1..] == "explore";
    }
    if path == "/explore" && username == "explore" {
      assert "/" + username == "/explore";
    }
  }

  /** The links' local state. */
  datatype LinksState = LinksState(showTooltip: bool, showList: bool)

  /** `useState(hasNotifications)` and `useState(false)`. */
  function InitialLinks(ns: seq<Notification>, lastChecked: int): (s: LinksState)
    ensures s.showTooltip <==> exists i :: 0 <= i < |ns| && ns[i].createdAt > lastChecked
    ensures !s.showList
  {
    LinksState(HasNotifications(ns, lastChecked), false)
  }

  /** The tooltip's `onOpen` and the five-second timer both close it. */
  function CloseTooltip(s: LinksState): (r: LinksState)
    ensures !r.showTooltip && r.showList == s.showList
  {
    s.(showTooltip := false)
  }

  /** A click on the heart toggles the notification list. */
  function ToggleList(s: LinksState): (r: LinksState)
    ensures r.showList == !s.showList && r.showTooltip == s.showTooltip
  {
    s.(showList := Flip(s.showList))
  }

  /** After `n` clicks on the heart the list is open iff it started open and `n`
      is even or started closed and `n` is odd; the heart icon is active iff the
      list is open. */
  function ToggleListN(s: LinksState, n: nat): LinksState
  {
    if n == 0 then s else ToggleList(ToggleListN(s, n - 1))
  }

  lemma {:induction false} ToggleListParity(s: LinksState, n: nat)
    ensures ToggleListN(s, n).showList == Clicks(s.showList, n)
    ensures ToggleListN(s, n).showTooltip == s.showTooltip
  {
    if n > 0 {
      ToggleListParity(s, n - 1);
    }
  }

  /** The tooltip, once closed, stays closed whatever the list does. */
  lemma ClosedTooltipStaysClosed(s: LinksState, n: nat)
    ensures !ToggleListN(CloseTooltip(s), n).showTooltip
  {
    ToggleListParity(CloseTooltip(s), n);
  }
}
