/**
 * The notifications screen of psiagram/app/notifications.tsx: the
 * relative-time text (`timeAgo`), where a press on a notification leads
 * (`handlePress`) and how a notification row is presented (`renderItem`).
 * Times are milliseconds since the epoch; parsing `created_at` is not part of
 * this model.
 */
module Notifications {
  import opened Wrappers
  import opened Decimal

  const MsPerSecond: int := 1000
  const SecondsPerMinute: int := 60
  const SecondsPerHour: int := 3600
  const SecondsPerDay: int := 86400
  const SecondsPerWeek: int := 604800

  /** The five buckets of the relative-time text, each with its count. */
  datatype Ago =
    | Seconds(n: int)
    | Minutes(n: int)
    | Hours(n: int)
    | Days(n: int)
    | Weeks(n: int)

  /** Position of a bucket in the ladder seconds < minutes < hours < days < weeks. */
  function Rank(a: Ago): nat {
    match a
    case Seconds(_) => 0
    case Minutes(_) => 1
    case Hours(_) => 2
    case Days(_) => 3
    case Weeks(_) => 4
  }

  /** `Math.floor((now - past) / 1000)`; Dafny's division by a positive divisor rounds down. */
  function DiffInSeconds(nowMs: int, pastMs: int): (d: int)
    ensures MsPerSecond * d <= nowMs - pastMs < MsPerSecond * (d + 1)
  {
    (nowMs - pastMs) / MsPerSecond
  }

  /**
   * The bucket for a difference of `d` whole seconds. Every `d`, negative
   * (a date in the future) included, lands in exactly one bucket; the count
   * is the whole number of that unit in `d`, and lies in 1..59 for minutes,
   * 1..23 for hours and 1..6 for days.
   */
  function Bucket(d: int): (a: Ago)
    ensures a.Seconds? <==> d < SecondsPerMinute
    ensures a.Minutes? <==> SecondsPerMinute <= d < SecondsPerHour
    ensures a.Hours? <==> SecondsPerHour <= d < SecondsPerDay
    ensures a.Days? <==> SecondsPerDay <= d < SecondsPerWeek
    ensures a.Weeks? <==> SecondsPerWeek <= d
    ensures a.Seconds? ==> a.n == d
    ensures a.Minutes? ==> a.n == d / SecondsPerMinute && 1 <= a.n <= 59
    ensures a.Hours? ==> a.n == d / SecondsPerHour && 1 <= a.n <= 23
    ensures a.Days? ==> a.n == d / SecondsPerDay && 1 <= a.n <= 6
    ensures a.Weeks? ==> a.n == d / SecondsPerWeek && a.n >= 1
  {
    if d < 60 then Seconds(d)
    else
      var minutes := d / 60;
      if minutes < 60 then Minutes(minutes)
      else
        var hours := minutes / 60;
        assert hours == d / 3600;
        if hours < 24 then Hours(hours)
        else
          var days := hours / 24;
          assert days == d / 86400;
          if days < 7 then Days(days)
          else
            assert days / 7 == d / 604800;
            Weeks(days / 7)
  }

  /** A later instant never moves the text to an earlier bucket. */
  lemma BucketMonotone(d1: int, d2: int)
    requires d1 <= d2
    ensures Rank(Bucket(d1)) <= Rank(Bucket(d2))
    ensures Rank(Bucket(d1)) == Rank(Bucket(d2)) ==> Bucket(d1).n <= Bucket(d2).n
  {
    assert d1 / 60 <= d2 / 60;
    assert d1 / 3600 <= d2 / 3600;
    assert d1 / 86400 <= d2 / 86400;
    assert d1 / 604800 <= d2 / 604800;
  }

  /** The unit word: singular only for exactly one week. */
  function UnitWord(a: Ago): string {
    match a
    case Seconds(_) => "seconds"
    case Minutes(_) => "minutes"
    case Hours(_) => "hours"
    case Days(_) => "days"
    case Weeks(n) => if n == 1 then "week" else "weeks"
  }

  /** The text of a bucket: `<count> <unit> ago`. */
  function Render(a: Ago): string {
    IntToDecimal(a.n) + " " + UnitWord(a) + " ago"
  }

  /** `timeAgo`: the relative-time text for an instant `pastMs` seen at `nowMs`. */
  function TimeAgo(nowMs: int, pastMs: int): (text: string)
    ensures |text| > 4 && text[|text| - 4..] == " ago"
    ensures text[0] == '-' <==> nowMs < pastMs
  {
    var a := Bucket(DiffInSeconds(nowMs, pastMs));
    assert Render(a)[..|IntToDecimal(a.n)|] == IntToDecimal(a.n);
    Render(a)
  }

  /**
   * The singular "week" appears exactly for differences of 7 to 13 whole
   * days; every other bucket is plural even for a count of one.
   */
  lemma SingularOnlyForOneWeek(nowMs: int, pastMs: int)
    ensures var d := DiffInSeconds(nowMs, pastMs);
      UnitWord(Bucket(d)) == "week" <==> SecondsPerWeek <= d < 2 * SecondsPerWeek
  {
    var d := DiffInSeconds(nowMs, pastMs);
    if SecondsPerWeek <= d {
      assert Bucket(d).n == d / 604800;
      assert d / 604800 == 1 <==> d < 1209600;
    }
  }

  /** One hour reads "1 hours ago": the plural is not adjusted. */
  lemma OneHourIsPlural()
    ensures TimeAgo(SecondsPerHour * MsPerSecond, 0) == "1 hours ago"
  {
    assert DiffInSeconds(SecondsPerHour * MsPerSecond, 0) == SecondsPerHour;
    assert Bucket(SecondsPerHour) == Hours(1);
  }

  /** A date in the future, however far, reads as a negative number of seconds. */
  lemma FutureReadsInSeconds(nowMs: int, pastMs: int)
    requires pastMs > nowMs
    ensures var d := DiffInSeconds(nowMs, pastMs);
      d < 0 && TimeAgo(nowMs, pastMs) == IntToDecimal(d) + " seconds ago" &&
      TimeAgo(nowMs, pastMs)[0] == '-'
  {
  }

  datatype NotificationType = Like | Comment | Follow

  datatype Notification = Notification(
    id: int,
    sender: int,
    senderUsername: string,
    senderAvatar: Option<string>,
    kind: NotificationType,
    post: Option<int>,
    postImage: Option<string>,
    isRead: bool,
    createdAtMs: int)

  function UserRoute(id: int): string { "/user/" + IntToDecimal(id) }
  function PostRoute(id: int): string { "/post/" + IntToDecimal(id) }

  /**
   * `handlePress`: a follow opens the sender's profile; any other
   * notification opens its post when it has one (a null post or post 0
   * opens nothing).
   */
  function PressTarget(item: Notification): (route: Option<string>)
    ensures item.kind == Follow ==> route == Some(UserRoute(item.sender))
    ensures item.kind != Follow ==>
      route == if TruthyNumber(item.post) then Some(PostRoute(item.post.value)) else None
  {
    if item.kind == Follow then Some(UserRoute(item.sender))
    else if TruthyNumber(item.post) then Some(PostRoute(item.post.value))
    else None
  }

  /**
   * Routes name their target unambiguously: two presses that lead to the
   * same route lead to the same user (both follows) or to the same post.
   */
  lemma PressTargetInjective(a: Notification, b: Notification)
    requires PressTarget(a).Some? && PressTarget(a) == PressTarget(b)
    ensures a.kind == Follow <==> b.kind == Follow
    ensures a.kind == Follow ==> a.sender == b.sender
    ensures a.kind != Follow ==> a.post == b.post
  {
    var r := PressTarget(a).value;
    assert r[1] == (if a.kind == Follow then 'u' else 'p');
    assert r[1] == (if b.kind == Follow then 'u' else 'p');
    if a.kind == Follow {
      assert IntToDecimal(a.sender) == r[6..] == IntToDecimal(b.sender);
      IntToDecimalInjective(a.sender, b.sender);
    } else {
      assert IntToDecimal(a.post.value) == r[6..] == IntToDecimal(b.post.value);
      IntToDecimalInjective(a.post.value, b.post.value);
    }
  }

  /** The message and icon for each notification type. */
  function MessageAndIcon(kind: NotificationType): (mi: (string, string))
    ensures mi.0 != "" && mi.1 != ""
  {
    match kind
    case Like => ("gave bone to your post!", "heart")
    case Comment => ("commented on your post!", "chatbubble")
    case Follow => ("started following you!", "person-add")
  }

  /** Different types never share a message or an icon. */
  lemma MessageAndIconDistinct(k1: NotificationType, k2: NotificationType)
    requires k1 != k2
    ensures MessageAndIcon(k1).0 != MessageAndIcon(k2).0
    ensures MessageAndIcon(k1).1 != MessageAndIcon(k2).1
  {
  }

  datatype Avatar = AvatarImage(uri: string) | AvatarPlaceholder
  datatype Trailing = PostThumbnail(uri: string) | TypeIcon(name: string)

  /** What a notification row shows. */
  datatype Row = Row(
    unread: bool,
    avatar: Avatar,
    username: string,
    message: string,
    time: string,
    trailing: Trailing)

  /**
   * `renderItem`: the unread style exactly for unread notifications; the
   * sender's avatar when it has one; the type's message; the time text; and
   * the post thumbnail when there is a post image, otherwise the type's icon.
   */
  function RenderItem(item: Notification, nowMs: int): (row: Row)
    ensures row.unread <==> !item.isRead
    ensures row.avatar.AvatarImage? <==> Truthy(item.senderAvatar)
    ensures row.avatar.AvatarImage? ==> row.avatar.uri == item.senderAvatar.value
    ensures row.username == item.senderUsername
    ensures row.message == MessageAndIcon(item.kind).0
    ensures row.time == TimeAgo(nowMs, item.createdAtMs)
    ensures row.trailing.PostThumbnail? <==> Truthy(item.postImage)
    ensures row.trailing.PostThumbnail? ==> row.trailing.uri == item.postImage.value
    ensures row.trailing.TypeIcon? ==> row.trailing.name == MessageAndIcon(item.kind).1
  {
    var (message, icon) := MessageAndIcon(item.kind);
    Row(
      !item.isRead,
      if Truthy(item.senderAvatar) then AvatarImage(item.senderAvatar.value) else AvatarPlaceholder,
      item.senderUsername,
      message,
      TimeAgo(nowMs, item.createdAtMs),
      if Truthy(item.postImage) then PostThumbnail(item.postImage.value) else TypeIcon(icon))
  }
}
