/**
  The notification tooltip (src/components/notification/NotificationTooltip.js)
  and the choice of new notifications in the navigation bar's links
  (src/components/shared/Navbar.js).

  Timestamps are modelled as integers ordered like the instants they denote;
  date parsing is not part of this model.
 */
module Notifications {
  import opened Prelude

  /** A notification row: its `type` and `created_at`. */
  datatype Notification = Notification(kind: string, createdAt: int)

  const FollowKind: string := "follow"
  const LikeKind: string := "like"

  /** `notifications.filter(({ type }) => type === kind).length`. */
  function CountKind(ns: seq<Notification>, kind: string): (n: nat)
    ensures n <= |ns|
    ensures n == 0 <==> forall i :: 0 <= i < |ns| ==> ns[i].kind != kind
    ensures n == |ns| <==> forall i :: 0 <= i < |ns| ==> ns[i].kind == kind
  {
    var r := Filter(ns, (x: Notification) => x.kind == kind);
    assert |r| > 0 ==> r[0].kind == kind && r[0] in ns;
    |r|
  }

  /** Counting distributes over concatenation. */
  lemma CountKindAppend(a: seq<Notification>, b: seq<Notification>, kind: string)
    ensures CountKind(a + b, kind) == CountKind(a, kind) + CountKind(b, kind)
  {
    FilterAppend(a, b, (x: Notification) => x.kind == kind);
  }

  /** A single notification counts once for its own type and not at all for another. */
  lemma CountKindSingleton(n: Notification, kind: string)
    ensures CountKind([n], kind) == if n.kind == kind then 1 else 0
  {
  }

  /** Together, `CountKindAppend` and `CountKindSingleton` pin the count: it
      equals the number of positions holding that type, computed one position
      at a time from the end. */
  lemma {:induction false} CountKindCountsPositions(ns: seq<Notification>, kind: string)
    ensures |ns| > 0 ==>
      CountKind(ns, kind) == CountKind(ns[..|ns| - 1], kind) + (if ns[|ns| - 1].kind == kind then 1 else 0)
  {
    if |ns| > 0 {
      assert ns == ns[..|ns| - 1] + [ns[|ns| - 1]];
      CountKindAppend(ns[..|ns| - 1], [ns[|ns| - 1]], kind);
      CountKindSingleton(ns[|ns| - 1], kind);
    }
  }

  /** Two follows and a like: the follow badge reads 2 and the like badge 1. */
  lemma CountKindExample(t: int)
    ensures var ns := [Notification(FollowKind, t), Notification(FollowKind, t), Notification(LikeKind, t)];
      CountKind(ns, FollowKind) == 2 && CountKind(ns, LikeKind) == 1
  {
    var f := Notification(FollowKind, t);
    var l := Notification(LikeKind, t);
    CountKindAppend([f, f], [l], FollowKind);
    CountKindAppend([f, f], [l], LikeKind);
    CountKindAppend([f], [f], FollowKind);
    CountKindAppend([f], [f], LikeKind);
    assert [f, f] == [f] + [f];
    assert [f, f, l] == [f, f] + [l];
  }

  /** The badges the tooltip shows: each one present iff its count is positive. */
  datatype Tooltip = Tooltip(followBadge: Option<nat>, likeBadge: Option<nat>)

  function RenderTooltip(ns: seq<Notification>): (t: Tooltip)
    ensures t.followBadge.Some? <==> exists i :: 0 <= i < |ns| && ns[i].kind == FollowKind
    ensures t.likeBadge.Some? <==> exists i :: 0 <= i < |ns| && ns[i].kind == LikeKind
    ensures t.followBadge.Some? ==> t.followBadge.value == CountKind(ns, FollowKind) > 0
    ensures t.likeBadge.Some? ==> t.likeBadge.value == CountKind(ns, LikeKind) > 0
  {
    var follows := CountKind(ns, FollowKind);
    var likes := CountKind(ns, LikeKind);
    Tooltip(if follows > 0 then Some(follows) else None, if likes > 0 then Some(likes) else None)
  }

  /** The two badges never count more notifications than there are: a row is
      a follow or a like, never both. */
  lemma BadgesBounded(ns: seq<Notification>)
    ensures CountKind(ns, FollowKind) + CountKind(ns, LikeKind) <= |ns|
  {
    DisjointFiltersBounded(ns, (x: Notification) => x.kind == FollowKind, (x: Notification) => x.kind == LikeKind);
  }

  /** `isAfter(created_at, last_checked)`: the notifications strictly newer
      than the last check, in their original order. */
  function NewNotifications(ns: seq<Notification>, lastChecked: int): (r: seq<Notification>)
    ensures |r| <= |ns|
    ensures forall i :: 0 <= i < |r| ==> r[i].createdAt > lastChecked && r[i] in ns
    ensures forall i :: 0 <= i < |ns| && ns[i].createdAt > lastChecked ==> ns[i] in r
    ensures forall x :: multiset(r)[x] == if x.createdAt > lastChecked then multiset(ns)[x] else 0
  {
    FilterMultiplicity(ns, (x: Notification) => x.createdAt > lastChecked);
    Filter(ns, (x: Notification) => x.createdAt > lastChecked)
  }

  /** The new notifications keep their relative order. */
  lemma NewNotificationsInOrder(ns: seq<Notification>, lastChecked: int)
    ensures IsSubsequence(NewNotifications(ns, lastChecked), ns)
  {
    FilterIsSubsequence(ns, (x: Notification) => x.createdAt > lastChecked);
  }

  /** `hasNotifications`, which also seeds `showTooltip`: some notification is
      strictly newer than the last check. */
  function HasNotifications(ns: seq<Notification>, lastChecked: int): (b: bool)
    ensures b <==> exists i :: 0 <= i < |ns| && ns[i].createdAt > lastChecked
  {
    var r := NewNotifications(ns, lastChecked);
    assert |r| > 0 ==> r[0] in ns;
    |r| > 0
  }

  /** A later check never reveals more new notifications. */
  lemma NewNotificationsShrink(ns: seq<Notification>, t1: int, t2: int)
    requires t1 <= t2
    ensures IsSubsequence(NewNotifications(ns, t2), NewNotifications(ns, t1))
    ensures |NewNotifications(ns, t2)| <= |NewNotifications(ns, t1)|
  {
    var p1 := (x: Notification) => x.createdAt > t1;
    var p2 := (x: Notification) => x.createdAt > t2;
    FilterNarrower(ns, p1, p2);
    FilterIsSubsequence(Filter(ns, p1), p2);
  }
}
