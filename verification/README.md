# Instagram clone client logic, in Dafny

This project models the decision logic of a React Instagram clone. The client
talks to a GraphQL backend, a hosted identity provider and an image host. Its
own logic is a set of small rules hidden inside components, and each rule is
modelled here as a pure function over immutable datatypes:

- the caption serialiser;
- infinite scrolling of the home feed and its page merge;
- the feed card's cache patches after a like or a comment;
- the like, save and follow toggles;
- the application shell: session ids, the two route tables and the post-modal rule;
- the notification tooltip and the navigation bar;
- the profile page's follow state machine and the post options dialog;
- the authentication status machine and new-user records;
- the validation rules and error mapping of the sign-up, log-in and edit-profile forms.

There is one module per source file. `Prelude` holds the shared pieces:
`Option`, order-preserving `Filter` and toggle parity. `Text` holds the
JavaScript string operations the code relies on: `trim` with JavaScript's
white-space set, `includes`, `slice(-n)`, and integer-to-string rendering.
`Forms` holds the rules the three forms share. `Routes` splits a path into
segments and resolves it first-match-wins against a route table.

Library predicates are parameters of the functions that use them: the HTML
escaper, `isEmail`, `isURL` and `isMobilePhone`. Results of network calls are
inputs: query data, mutation outcomes, the identity provider's user and the
search response.

The feed follows the code rather than a cleaner design. There is no in-flight
guard and no de-duplication of fetched posts. `endOfFeed` only hides the
loading icon and never stops a fetch (`FeedPage.ScrollEffectIgnoresEndOfFeed`).

The profile page's count section is `Profile.CountSection`: the posts, followers
and following labels in that order, each with the user's aggregate count. It
has no partner of its own and is used only as a fixed list.

## Model

| member | source | states |
|---|---|---|
| `Serialize.SerializeLeaf` | src/utils/serialize.js:5-7 | A text node serialises to exactly the escaper's output for its text. |
| `Serialize.SerializeElement` | src/utils/serialize.js:9-15 | An element serialises to its children's serialisations concatenated in child order. `<br>` is appended exactly when the element's type is `paragraph`, and nothing is added otherwise (including the untyped root). |
| `Serialize.SerializeAllIsJoin` | src/utils/serialize.js:9 | Serialising a child list equals `join('')` of the per-child strings, in order. |
| `Serialize.SerializeAllSnoc` | src/utils/serialize.js:9 | Appending a child appends exactly its serialisation, so order is preserved. |
| `Serialize.EmptyElements` | src/utils/serialize.js:11-15 | An empty paragraph yields `<br>` and any other empty element yields the empty string. |
| `Serialize.BreaksCountParagraphs` | src/utils/serialize.js:4-16 | If the escaper never emits `<`, the output holds one `<br>` per paragraph node in the tree, and every `<` in it opens a `<br>`. |
| `Serialize.BreaksCountParagraphsAll` | src/utils/serialize.js:9 | The same count for a list of children: the `<br>`s equal the paragraphs in all the subtrees. |
| `FeedPage.ScrollEffect` | src/pages/feed.js:28-32 | A fetch is issued iff the page bottom is reached and data holds posts. It always uses limit 2, the session feed ids and the `created_at` of the last loaded post. Data with no posts is the case where indexing the last post fails. |
| `FeedPage.ScrollEffectIgnoresEndOfFeed` | src/pages/feed.js:28-32 | The fetch decision does not depend on `endOfFeed`, so a page-bottom event still fetches after the end of the feed. |
| `FeedPage.HandleUpdateQuery` | src/pages/feed.js:34-41 | An empty page keeps the previous result and sets `endOfFeed`. Otherwise the result is the old posts followed by the fetched ones: the old posts are a prefix and the length is the sum. `endOfFeed` is never cleared. |
| `FeedPage.CursorAdvancesToFetchedPage` | src/pages/feed.js:30-40 | After a non-empty page is merged, the next cursor is the `created_at` of that page's last post. |
| `FeedPage.ReplayEffect` | src/pages/feed.js:21-65 | Merging pages in arrival order gives the loaded posts followed by all fetched posts. `endOfFeed` ends true iff it started true or some page was empty. The loading icon shows iff neither happened. |
| `FeedPage.ExampleScenario` | src/pages/feed.js:28-41 | Pages [t=100, t=90], then [t=80], then an empty page: the cursors used are 90 and 80, the feed ends with three posts, and the loading icon is gone. |
| `FeedCache.LikeDelta` | src/components/feed/FeedPost.js:141-142 | The delta is +1 iff `insert_likes.__typename` is `likes_mutation_response`, and -1 otherwise. |
| `FeedCache.ResultTypename` | src/components/feed/FeedPost.js:156-164 | The like mutation's result yields +1 and the unlike mutation's result yields -1. |
| `FeedCache.LikeCacheUpdateAsWritten` | src/components/feed/FeedPost.js:143-153 | As written, the delta is added to the like count of every cached post, and list length and order are kept. |
| `FeedCache.AsWrittenShiftsEveryPost` | src/components/feed/FeedPost.js:143-153 | As written, one like moves the total of all cached like counts by (number of cached posts) × delta. |
| `FeedCache.AsWrittenLikeRaisesUnrelatedPost` | src/components/feed/FeedPost.js:143-153 | Concrete case: liking the first of two cached posts raises the second post's count as written. The corrected patch leaves that post untouched. |
| `FeedCache.LikeCacheUpdate` | src/components/feed/FeedPost.js:143-153 | Corrected patch: only posts whose id is the liked post's id are shifted by the delta. Every other post is returned unchanged, and the length is kept. |
| `FeedCache.LikeCacheUpdateTotal` | src/components/feed/FeedPost.js:143-153 | The corrected patch moves the total like count by the delta once per cached post carrying that id. |
| `FeedCache.LikeThenUnlikeRestores` | src/components/feed/FeedPost.js:139-164 | Corrected patch: a confirmed like followed by a confirmed unlike leaves the cache exactly as it was. |
| `FeedCache.ClickSequenceNetEffect` | src/components/feed/FeedPost.js:130-164 | Corrected patch: after n clicks with each mutation's patch applied, the liked flag is the start flag flipped n times. The liked post's count differs by the net like (+1, -1 or 0), and no other post changes. |
| `FeedCache.LikeThenUnlikeRestoresAsWritten` | src/components/feed/FeedPost.js:139-164 | As written, a confirmed like followed by a confirmed unlike also leaves the cache as it was, since every post moves up one and back down one. |
| `FeedCache.ClickSequenceNetEffectAsWritten` | src/components/feed/FeedPost.js:130-164 | As written, after n clicks on one post's button the liked flag is the start flag flipped n times, and EVERY cached post's count differs by the net like (+1, -1 or 0), whatever its id. |
| `FeedCache.AddComment` | src/components/feed/FeedPost.js:210-220 | A post with another id is returned unchanged. The post with `postId` keeps its old comments as a prefix, gets the new comment last and a comment count one higher, and all its other fields stay equal. |
| `FeedCache.CommentCacheUpdate` | src/components/feed/FeedPost.js:208-221 | The patched list has the same length, and its i-th post is the i-th cached post after `AddComment`: only posts carrying `postId` change, and order is kept. |
| `FeedCache.CommentCacheUpdateTotal` | src/components/feed/FeedPost.js:208-221 | The total cached comment count rises by one per cached post carrying `postId`. |
| `FeedCache.ConfirmFeedComment` | src/components/feed/FeedPost.js:222-223 | After the comment patch the field is empty and its Post button is disabled again. |
| `PostButtons.InitiallyLiked` | src/components/feed/FeedPost.js:130-131 | The initial liked state is true iff the viewer's id is among the post's like rows. |
| `PostButtons.InitiallySaved` | src/components/feed/FeedPost.js:172-173 | The initial saved state is true iff the viewer's id is among the post's saved rows. |
| `PostButtons.ClickLike` | src/components/post/Post.js:168-180 | A click sends unlike iff liked and like otherwise. The new state is the opposite and is liked iff the mutation is a like. |
| `PostButtons.ClickSave` | src/components/post/Post.js:193-204 | A click sends unsave iff saved and save otherwise, and the new state is the opposite. |
| `PostButtons.LikedAfterParity` | src/components/feed/FeedPost.js:135-164 | After n clicks, the button is liked iff it started liked and n is even, or started unliked and n is odd. |
| `PostButtons.LikesLabel` | src/components/feed/FeedPost.js:68 | The label is `1 like` iff the count is 1, and otherwise the decimal rendering of the count followed by ` likes`. |
| `PostButtons.LikesLabelInjective` | src/components/post/Post.js:67 | Different counts never produce the same label. |
| `PostButtons.CanPostComment` | src/components/feed/FeedPost.js:249 | The Post button is enabled iff the content is not all JavaScript white space. |
| `PostButtons.SendCommentFromPostPage` | src/components/post/Post.js:215-218 | The mutation carries the typed content, post id and viewer, and the field is cleared at once, with no cache patch. |
| `FeedLinks.PostLinkOpensPost` | src/components/feed/FeedPost.js:61 | The comment icon's `/p/<id>` link opens that post's page. |
| `FeedLinks.AuthorLinkOpensPostPage` | src/components/feed/FeedPost.js:71 | As written, the author link above a feed caption opens the post page with the username as post id, never the author's profile. |
| `FeedLinks.AuthorLinkOpensProfile` | src/components/post/Post.js:105 | Corrected author link: for a username that is one segment and not `explore`, `/` ++ username opens that user's profile. |
| `Routes.SplitJoinRoundTrip` | src/App.js:63 | Splitting a path built from segments gives the segments back. This is the path form the route table matches on. |
| `Routes.FirstMatch` | src/App.js:63-88 | The result is the index of a matching route with no matching route before it, or none iff no route matches. |
| `Routes.AuthenticatedRouting` | src/App.js:63-88 | `/` gives the feed. Any path under `/explore` gives explore, so the single segment `explore` never reaches a profile. Any other single segment gives a profile, `/p/<id>` a post, and the three account paths their pages. Everything else gives not-found. |
| `Routes.ResolveUnauthenticated` | src/App.js:40-51 | Signed out, only paths under `/accounts/login` and `/accounts/emailsignup` render pages, and every other path redirects to login. |
| `Routes.ProfileLinkResolves` | src/App.js:70-72 | `/` ++ username opens that profile for any one-segment username except `explore`, which the explore route takes. |
| `App.UserIds` | src/App.js:57-58 | The id list keeps the edges' order and length, with the i-th id being the i-th edge's user id. |
| `App.FeedIds` | src/App.js:59 | `feedIds` is `followingIds` followed by the current user: its length is \|following\| + 1 and its last element is the user. |
| `App.FeedIdsMembership` | src/App.js:59 | A user is in `feedIds` iff it is the current user or some followed user. |
| `App.DeriveSession` | src/App.js:55-59 | A session exists iff the subscription data holds a user row. It carries that row, its id and the derived id lists. |
| `App.SwitchLocation` | src/App.js:54-63 | The switch renders the remembered location while the modal is open, and the current location otherwise. |
| `App.FirstRenderHasNoModal` | src/App.js:29-54 | On the first render the remembered location is the location itself, so no modal is open. |
| `App.ModalKeepsBackground` | src/App.js:32-63 | Navigating to a location with the modal flag opens the modal. The switch keeps rendering the remembered page, and the remembered location is not replaced. |
| `App.NavigationOpensModalIffFlag` | src/App.js:54 | After any navigation the modal is open iff the new location has the modal flag, because every navigation yields a new location object that is never the remembered one. The switch then shows the remembered page iff the flag is set. |
| `App.BackToPreviousClosesModal` | src/App.js:54 | Returning to the remembered location leaves the modal open iff that location itself has the modal flag, and the remembered page is shown either way. Only a first location opened with the flag can be remembered with it. |
| `App.RememberedLocationIsNeverModal` | src/App.js:29-36 | After any navigations, the remembered location is the start location or one reached by a non-POP navigation without the modal flag. |
| `App.ModalPostId` | src/App.js:89 | The overlay route matches iff the real location's path is `/p/<id>`, and it yields that id. |
| `App.RenderApp` | src/App.js:38-91 | Loading shows the loading screen. Signed out uses the signed-out table on the real location. Signed in without a user row is the failing case. Signed in with a user row always gives the signed-in page. Its page comes from the switch location. It has an overlay iff the modal is open and the real location is `/p/<id>`, and the overlay is that `<id>`. |
| `App.ModalRendersPostOverBackground` | src/App.js:54-89 | With the modal open on `/p/<id>`, the page is the remembered location's page and the overlay shows that post. |
| `App.PostPathWithoutModal` | src/App.js:63-89 | Without the modal flag, `/p/<id>` opens the full post page and nothing is overlaid. |
| `Notifications.CountKind` | src/components/notification/NotificationTooltip.js:8-9 | The count of a type is at most the total. It is zero iff no notification has that type, and it equals the total iff all have it. |
| `Notifications.CountKindAppend` | src/components/notification/NotificationTooltip.js:8-9 | The count over a concatenation is the sum of the counts over the parts. |
| `Notifications.CountKindSingleton` | src/components/notification/NotificationTooltip.js:8-9 | A single notification counts 1 for its own type and 0 for any other. |
| `Notifications.CountKindCountsPositions` | src/components/notification/NotificationTooltip.js:8-9 | The count is the count of all but the last notification, plus one iff the last has that type. So the count is exactly the number of positions with that type. |
| `Notifications.CountKindExample` | src/components/notification/NotificationTooltip.js:8-19 | Two follows and a like give a follow count of 2 and a like count of 1. |
| `Notifications.RenderTooltip` | src/components/notification/NotificationTooltip.js:13-24 | The follow badge shows iff some notification is a follow, and the like badge iff some is a like. Each badge carries its positive count. |
| `Notifications.BadgesBounded` | src/components/notification/NotificationTooltip.js:8-9 | The follow count plus the like count never exceeds the number of notifications. |
| `Prelude.FilterMultiplicity` | src/components/shared/Navbar.js:143-145 | `filter` keeps each element that passes the test exactly as often as it occurs in the input, and no other element. |
| `Notifications.NewNotifications` | src/components/shared/Navbar.js:143-145 | The result holds exactly the notifications created strictly after `last_checked`: each one as many times as in the input, and nothing else. |
| `Notifications.NewNotificationsInOrder` | src/components/shared/Navbar.js:143-145 | The new notifications keep their relative order. |
| `Notifications.HasNotifications` | src/components/shared/Navbar.js:146 | True iff some notification is strictly newer than the last check. |
| `Notifications.NewNotificationsShrink` | src/components/shared/Navbar.js:143-145 | A later last-check time gives an in-order sublist of the earlier new notifications. |
| `Text.Trim` | src/components/shared/Navbar.js:81 | `trim()` gives a string with no JavaScript white space at either end. It is empty iff the input is all white space. |
| `Text.TrimDropsOnlyBlanks` | src/components/shared/Navbar.js:81 | The trimmed string is a contiguous slice of the input, and everything dropped before and after it is white space. |
| `Text.RemoveWhitespaceAppend` | src/authContext.js:60 | `replace(/\s+/g, '')` distributes over concatenation. |
| `Text.RemoveWhitespaceChar` | src/authContext.js:60 | A single character is removed iff it is JavaScript white space. |
| `Navbar.SearchPattern` | src/components/shared/Navbar.js:83 | The pattern is `%` ++ query ++ `%`. |
| `Navbar.SearchEffect` | src/components/shared/Navbar.js:80-88 | A query that is blank after trimming sends nothing and changes nothing. Otherwise the pattern is sent, and data already present replaces the results and ends loading. |
| `Navbar.BlankQueryKeepsStaleResults` | src/components/shared/Navbar.js:78-88 | A white-space-only query keeps the previous results, and the results tooltip stays open. |
| `Navbar.SearchOpensResultsIffMatches` | src/components/shared/Navbar.js:78-88 | After the search effect runs on a non-blank query whose response has arrived, `hasResults` (the results tooltip) holds iff some user matched. |
| `Navbar.SelectResult` | src/components/shared/Navbar.js:105-108 | Choosing a result navigates to `/` ++ username and empties the query, which closes the results tooltip. |
| `Navbar.ClearQuery` | src/components/shared/Navbar.js:132 | The clear icon empties the query and closes the results tooltip. |
| `Navbar.ActiveIconsExclusive` | src/components/shared/Navbar.js:175-189 | Home is never active together with explore or (for a non-empty username) the profile. Explore and the profile are active together iff the username is `explore`. |
| `Navbar.InitialLinks` | src/components/shared/Navbar.js:147-148 | The tooltip starts open iff there are new notifications, and the list starts closed. |
| `Navbar.ToggleListParity` | src/components/shared/Navbar.js:184-185 | After n clicks, the list is open per the parity of n. |
| `Navbar.ClosedTooltipStaysClosed` | src/components/shared/Navbar.js:179-184 | Once closed, the tooltip stays closed through any list toggling. |
| `Profile.LoadedUser` | src/pages/profile.js:37 | A user is present iff the query returned one, and it is the first row. |
| `Profile.InitialFollowState` | src/pages/profile.js:77-79 | The viewer starts following iff the profile's id is in `followingIds`, and the dialog starts closed. |
| `Profile.OwnProfileShowsEditLink` | src/pages/profile.js:38 | A viewer sees the edit link, which opens the edit page, iff the profile is their own (`user.id === currentUserId`). Otherwise they see the visitor's follow button. |
| `Profile.IsFollower` | src/pages/profile.js:82 | True iff the viewer is not following and the profile's id is in `followersIds`. |
| `Profile.VisitorButton` | src/pages/profile.js:94-114 | Exactly one of three buttons: `Following` iff following, `Follow Back` iff a follower, `Follow` otherwise. |
| `Profile.ChooseButton` | src/pages/profile.js:121-132 | The owner gets the edit link and never a follow button, and the link opens the edit page. A visitor gets the visitor button. |
| `Profile.SmallEditLinkIsNotFound` | src/pages/profile.js:146 | The small-screen edit link as written (`/account/edit`) resolves to the not-found page. |
| `Profile.LargeEditLinkResolves` | src/pages/profile.js:123 | The large-screen edit link resolves to the edit page. |
| `Profile.Step` | src/pages/profile.js:84-92 | Follow sets following and sends the follow mutation. Clicking `Following` opens the dialog. Confirming unfollows, closes the dialog and sends the unfollow mutation. Cancelling only closes the dialog. |
| `Profile.FollowUnfollowRoundTrip` | src/pages/profile.js:84-171 | Following shows `Following`. Unfollowing through the dialog returns to the starting state and the starting button. |
| `Profile.CancelKeepsFollowing` | src/pages/profile.js:157-193 | Cancelling the dialog keeps the viewer following. |
| `Profile.RenderOptionsMenu` | src/pages/profile.js:271-285 | After Log Out the menu shows the logging-out title. Otherwise it shows its seven items, with Log Out second to last. |
| `OptionsDialog.IsUnrelatedUser` | src/components/shared/OptionsDialog.js:17-21 | The viewer is unrelated iff they are not the author and the author is not in `followingIds`. |
| `OptionsDialog.Render` | src/components/shared/OptionsDialog.js:17-53 | The red button shows iff the viewer is the author or follows them. It reads `Delete` for the author and `Unfollow` otherwise, and `Go to post` links to `/p/<id>`. |
| `OptionsDialog.OwnerAlwaysDeletes` | src/components/shared/OptionsDialog.js:17-21 | The author always gets `Delete`, whether or not they follow themselves. A non-author who follows the author gets `Unfollow`. |
| `OptionsDialog.Press` | src/components/shared/OptionsDialog.js:25-35 | Delete sends the delete for the post and the viewer. Only a resolved delete closes the dialog, goes home and reloads; a rejected one leaves the dialog open with no navigation and no reload. Unfollow unfollows the author and closes the dialog, whatever the mutation's outcome. |
| `OptionsDialog.RedButtonMatchesHandler` | src/components/shared/OptionsDialog.js:18-19 | The red button's text always matches the handler it runs. |
| `FollowButton.InitialFollowing` | src/components/shared/FollowButton.js:12-13 | The button starts as following iff the target's id is in `followingIds`. |
| `FollowButton.Render` | src/components/shared/FollowButton.js:27-45 | `Following` is shown iff following, and it unfollows; `Follow` follows. With `side` both buttons are text buttons. Otherwise `Follow` is contained and `Following` outlined. |
| `FollowButton.ClickNParity` | src/components/shared/FollowButton.js:17-45 | After n clicks, the button shows following per the parity of n. |
| `Auth.OnAuthStateChanged` | src/authContext.js:31-52 | A user with the Hasura claim signs in with their token. A user without it leaves the state alone. No user signs out. |
| `Auth.SignedInOnlyWithClaim` | src/authContext.js:31-52 | The auth-state listener alone, without refresh-time events: starting from loading or out, the state is `in` only for a uid some notification reported with the claim, and a final notification with no user signs out. |
| `Auth.SignedInOnlyReportedUser` | src/authContext.js:31-53 | Both listeners, with refresh-time events only for uids reported earlier without the claim: starting from loading or out, the state is `in` only for a uid some auth-state notification reported, and a final notification with no user signs out. |
| `Auth.RefreshAfterSignOutSignsBackIn` | src/authContext.js:41-51 | The refresh-time listener is never removed: a claimless user who is then signed out is signed in again by a later value event for their refresh time. |
| `Auth.OnRefreshTimeAsWritten` | src/authContext.js:43-47 | As written, every refresh-time event signs in with a refreshed token, whether or not the snapshot exists. |
| `Auth.RefreshWithoutSnapshotSignsIn` | src/authContext.js:44 | With no snapshot, the as-written listener signs in and the corrected one leaves the state alone. |
| `Auth.OnRefreshTime` | src/authContext.js:43-47 | Corrected: a missing snapshot leaves the state unchanged, and an existing one signs in with the refreshed token. |
| `Auth.SignOut` | src/authContext.js:97-101 | Sign-out first sets `loading`, which renders nothing. It ends in `out`, which renders, iff the provider's sign-out resolves; a rejection leaves the state at `loading`. |
| `Auth.GoogleUsername` | src/authContext.js:60 | The username is the display name with all white space removed, followed by the last five characters of the uid (all of it if shorter). |
| `Auth.GoogleUsernameJoinsWords` | src/authContext.js:60 | A two-word display name loses the space between its words before the uid suffix. |
| `Auth.GoogleUsernameKeepsPlainName` | src/authContext.js:60 | A display name without white space is kept verbatim before the uid suffix. |
| `Auth.GoogleNewUser` | src/authContext.js:56-73 | A record is created iff the user is new. It gets the Google name, e-mail and photo, the derived username, and an empty bio, website and phone. |
| `Auth.EmailNewUser` | src/authContext.js:80-95 | A record is created iff the user is new. It gets the form's name and username, the provider's uid and e-mail, an empty bio, website and phone, and the default avatar. |
| `Forms.MatchesUsernamePattern` | src/pages/signup.js:129 | The pattern test holds iff every character is in `[a-zA-Z0-9_.]`. |
| `Forms.UsernameShapeValid` | src/pages/edit-profile.js:202-206 | A username is well-formed iff its length is within [5, 20] and every character is in `[a-zA-Z0-9_.]`. |
| `Forms.UsernameIsSegment` | src/pages/edit-profile.js:204 | A well-formed username is non-empty and has no `/` and no white space. |
| `Forms.IsUsernameTaken` | src/pages/signup.js:39 | True iff the message contains `users_username_key`. |
| `Forms.IsAuthCode` | src/pages/login.js:53 | True iff the error has a code and it contains `auth`. |
| `Forms.ProviderCodesAreAuthCodes` | src/pages/login.js:53 | Every `auth/...` code counts as an auth code. |
| `EditProfile.Selected` | src/pages/edit-profile.js:46-53 | Only drawer entry 0 can be selected, and it is iff the path contains `edit`. |
| `EditProfile.ListClick` | src/pages/edit-profile.js:55-63 | Only entry 0 navigates, to `/accounts/edit`. |
| `EditProfile.ShowsForm` | src/pages/edit-profile.js:126 | The form is rendered iff drawer entry 0 is selected. |
| `EditProfile.EditPathShowsForm` | src/pages/edit-profile.js:46-53 | On `/accounts/edit` the form is shown and entry 0 is selected. |
| `Prelude.ClicksParity` | src/pages/edit-profile.js:42-44 | A two-state control clicked n times, like the drawer toggle, is back in its start state iff n is even. |
| `EditProfile.FormValid` | src/pages/edit-profile.js:190-260 | The form is valid iff: the name has 5 to 20 characters; the username is well-formed; the website is empty or a URL; the bio has at most 120 characters; the e-mail is present and valid; and the phone is empty or a mobile number. |
| `EditProfile.OptionalFieldsMayBeEmpty` | src/pages/edit-profile.js:215-255 | Emptying the website, bio and phone never invalidates a valid form. |
| `EditProfile.HandleError` | src/pages/edit-profile.js:155-161 | A taken username gives a username error with the fixed message. Otherwise an auth code gives an e-mail error with the message. Otherwise the error is unchanged. |
| `EditProfile.Submit` | src/pages/edit-profile.js:142-153 | The error is reset first. Success opens the snackbar, and failure maps the caught error from the reset state. |
| `EditProfile.SubmitForgetsOldError` | src/pages/edit-profile.js:144 | The error after a submit does not depend on the error before it, and an unmapped failure leaves none. |
| `EditProfile.HelperText` | src/pages/edit-profile.js:303 | A field shows helper text iff it receives the error prop, its name is the error's type and the message is non-empty. |
| `EditProfile.HelperTextOnOneField` | src/pages/edit-profile.js:155-161 | After a mapped failure, at most one field shows helper text, and it is the field the mapping chose. |
| `Signup.FormValid` | src/pages/signup.js:88-157 | The form is valid iff: the e-mail is present and valid; the name has 5 to 20 characters; the username is well-formed and available; and the password has at least 5 characters. |
| `Signup.TakenUsernameRejected` | src/pages/signup.js:128 | A taken username never passes. |
| `Signup.HandleError` | src/pages/signup.js:38-44 | A taken username gives `Username already taken`. Otherwise an auth code gives the message. Otherwise the error is unchanged. |
| `Signup.Submit` | src/pages/signup.js:28-36 | The error is cleared first. Success navigates home with no error shown, and failure maps the caught error. |
| `Signup.FailureVisibility` | src/pages/signup.js:38-44 | A failed sign-up shows a message iff the username was taken, or the code is an auth code with a non-empty message. |
| `Signup.UsernameKeyWins` | src/pages/signup.js:39-41 | A unique-username violation is reported as taken even when the code is an auth code. |
| `Signup.AcceptedUsernameProfileLink` | src/pages/signup.js:124-129 | Any accepted username other than `explore` has a profile link that opens its profile. The accepted username `explore` is taken by the explore route. |
| `Signup.ExploreIsAcceptedUsername` | src/pages/signup.js:124-129 | `explore` passes every shape rule. |
| `Login.ResolveIdentifier` | src/pages/login.js:31-50 | An e-mail is used as typed. Otherwise the first match's e-mail is used if present and non-empty, else `no@email.com`. |
| `Login.ResolvedNeverEmpty` | src/pages/login.js:48 | For a non-e-mail identifier, the address used is never empty: it is either the fallback or the looked-up e-mail. |
| `Login.FormValid` | src/pages/login.js:66-84 | The form is valid iff both the identifier and the password have at least 5 characters. |
| `Login.SubmitDisabled` | src/pages/login.js:101 | Submit is enabled iff both fields are valid and no submit is in progress. |
| `Login.HandleError` | src/pages/login.js:52-56 | Only an auth code sets the message, and anything else leaves it. |
| `Login.Submit` | src/pages/login.js:31-41 | The error is cleared first. Success goes home. A failure shows a message only for an auth code, and then it is the error's message. |
| `Login.RenderPassword` | src/pages/login.js:85-95 | The Show/Hide control appears iff a password is typed, and reads `Hide` iff it is shown. The field type is `text` iff shown. |
| `Login.ToggleTwiceRestores` | src/pages/login.js:86-95 | One click changes the field type, and two clicks restore the view. |
| `Login.GoogleLoginError` | src/pages/login.js:149-157 | A failed Google sign-in shows the error's message whatever its code, and success leaves the error. |

## Left out

- Network I/O is not modelled. This covers the GraphQL transport, the cache API (`readQuery`/`writeQuery`/`fetchMore`), the identity provider's sign-in, token and database calls, the image upload, and the post, avatar and profile mutations. Their inputs and outputs are parameters or results; the cache is a list of posts.
- Timers and scroll hooks are not modelled: the 5-second tooltip close, the 2-second log-out delay, `setTimeout(…, 0)` navigation, scroll-to-top and the page-bottom hook. The timer's firing is an event (`Navbar.CloseTooltip`), and the page-bottom flag is an input.
- Races are not modelled: mutation results against subscription snapshots, and overlapping fetches. The code has no logic to coordinate them.
- Date formatting is not modelled: it is presentation that depends on the clock. Timestamps are integers ordered like the instants they denote, and `isAfter` is a strict `>`.
- The library predicates are parameters of the functions that use them: the HTML escaper, `isEmail`, `isURL` (with its protocol options) and `isMobilePhone`. Only the `<br>` count lemma assumes anything about the escaper: that it never emits `<`.
- Auth.SignedInOnlyWithClaim: covers the auth-state listener alone. With the refresh-time listeners, which sign in claimless users and outlive sign-out, only the weaker `Auth.SignedInOnlyReportedUser` holds.
- The navigation bar's progress animation and its minimal layout without search and links are not modelled: they are presentation.
- Routes.SplitPath: drops empty segments, so repeated slashes collapse. `/p//x` resolves to the post `x` and `//alice` to alice's profile, while react-router requires a non-empty segment after each `/` of `/p/:postId` and `/:username` and shows the not-found page.
- Route matching covers react-router's segment matching only. Case-insensitive matching, trailing slashes, URL decoding and `:param` patterns that span slashes are not modelled.
- Location identity (`!==` on location objects) is a flag of the router state. It is set by the first render and by the effect that stores the location, and cleared by every navigation, since the router creates a new location object for each one. Re-renders without a navigation are not modelled.
- Field lengths count characters of the model's strings; the browser counts UTF-16 code units.
- The form library's asynchronous validation, touched state and error icons are not modelled. Only the rules and the resulting validity are.
- `Auth.OnAuthStateChanged`: the awaited token calls are not modelled. The claim's presence and the token are fields of the reported user.
- `App.RenderApp`: the failing cases are states rather than exceptions. These are missing data or an empty `users` list after loading. An error whose `code` is absent is treated the same way in the three form handlers: calling `includes` on it throws inside the handler, so the error state is left as it was (`Forms.IsAuthCode`).
- Purely presentational parts are not modelled: styling, icons, avatars, the SEO title and the profile title string, and the owner's profile picture upload.

## Findings

| source | as written | input that shows it | evidently intended | confidence | as-written member | corrected member |
|---|---|---|---|---|---|---|
| src/components/feed/FeedPost.js:143-153 | The like-cache patch adds the ±1 delta to the like count of every cached feed post. | A feed of two posts with 10 and 3 likes. Liking the first makes the second show 4. | Shift only the post whose id is the liked post's id, as the comment patch at lines 208-221 does. | high; not executed | `FeedCache.LikeCacheUpdateAsWritten`, `FeedCache.AsWrittenLikeRaisesUnrelatedPost` | `FeedCache.LikeCacheUpdate` |
| src/authContext.js:44 | `if (!data.exists) return` reads the snapshot's `exists` method without calling it. The guard never fires, so every refresh-time event signs the user in. | A user without the claim whose refresh-time snapshot does not exist is signed in anyway. | `if (!data.exists()) return`: a missing snapshot leaves the state alone. | medium; not executed | `Auth.OnRefreshTimeAsWritten`, `Auth.RefreshWithoutSnapshotSignsIn` | `Auth.OnRefreshTime` |
| src/pages/profile.js:146 | The small-screen Edit Profile link points to `/account/edit`. | The owner's profile on a small screen: the link's path `["account", "edit"]` resolves to the not-found page. | `/accounts/edit`, as the large-screen link at line 123 has. | high; not executed | `Profile.SmallEditLinkIsNotFound` | `Profile.ChooseButton` |
| src/components/feed/FeedPost.js:71 | The author name above a feed caption links to `/p/${user.username}`. | Author `alice`: the link `/p/alice` opens the post page for a post with id `alice`. | `/${user.username}`, the author's profile, as the post page's caption (Post.js line 105) writes it. | high; not executed | `FeedLinks.AuthorLinkOpensPostPage` | `FeedLinks.AuthorLinkOpensProfile` |
