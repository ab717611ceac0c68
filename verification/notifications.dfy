/** The Notifications page: the filtered list, "Clear All", the relative-time
    label and the per-type icon and colour. */
module Notifications {
  import opened Text
  import opened Tones
  import Seqs

  datatype Notification = Notification(
    id: int,
    kind: string,
    title: string,
    message: string,
    time: int,          // milliseconds since the epoch
    unread: bool,
    actions: seq<string>)

  const MinuteMs: int := 60000
  const HourMs: int := 3600000
  const DayMs: int := 86400000

  /** The initial list; `mountedAt` is `Date.now()` when the page mounts. */
  function Seed(mountedAt: int): (ns: seq<Notification>)
    ensures |ns| == 5
  {
    [ Notification(1, "message", SeedTitles.0, SeedMessages.0, mountedAt - 1800000, true, ["Reply", "Mark as Read"]),
      Notification(2, "task", SeedTitles.1, SeedMessages.1, mountedAt - 3600000, true, ["View Task", "Dismiss"]),
      Notification(3, "alert", SeedTitles.2, SeedMessages.2, mountedAt - 7200000, false, ["Learn More"]),
      Notification(4, "mention", SeedTitles.3, SeedMessages.3, mountedAt - 86400000, true, ["View Thread", "Reply"]),
      Notification(5, "team", SeedTitles.4, SeedMessages.4, mountedAt - 172800000, false, ["Welcome", "View Profile"]) ]
  }

  const SeedTitles: (string, string, string, string, string) := (
    "New message from Sarah",
    "Task completed",
    "System Update",
    "Mentioned in a comment",
    "New team member")

  const SeedMessages: (string, string, string, string, string) := (
    "Hey! I just reviewed the project proposal and left some comments...",
    "Frontend development for the dashboard has been marked as complete.",
    "The system will undergo maintenance in 2 hours. Please save your work.",
    "@david What do you think about the new design system implementation?",
    "Emily Rodriguez has joined the Design team.")

  /** The per-item test of the list filter for the active filter key: "all"
      passes everything, "unread" reads the flag, any other key is a type. */
  function Shows(filter: string): (test: Notification -> bool)
    ensures filter == "all" ==> forall n :: test(n)
    ensures filter == "unread" ==> forall n :: test(n) == n.unread
    ensures filter != "all" && filter != "unread" ==> forall n :: test(n) == (n.kind == filter)
  {
    (n: Notification) => if filter == "all" then true else if filter == "unread" then n.unread else n.kind == filter
  }

  /** `filteredNotifications`. */
  function Visible(ns: seq<Notification>, filter: string): (r: seq<Notification>)
    ensures |r| <= |ns|
    ensures forall k :: 0 <= k < |r| ==> r[k] in ns && Shows(filter)(r[k])
    ensures forall i :: 0 <= i < |ns| && Shows(filter)(ns[i]) ==> ns[i] in r
  {
    Seqs.Filter(ns, Shows(filter))
  }

  /** Under "all" the list is shown as it is. */
  lemma {:induction false} VisibleAll(ns: seq<Notification>)
    ensures Visible(ns, "all") == ns
  {
    Seqs.FilterKeepsAll(ns, Shows("all"));
  }

  /** Under "unread" exactly the unread items are shown, in list order. */
  lemma VisibleUnread(ns: seq<Notification>)
    ensures forall k :: 0 <= k < |Visible(ns, "unread")| ==> Visible(ns, "unread")[k].unread
    ensures forall i :: 0 <= i < |ns| && ns[i].unread ==> ns[i] in Visible(ns, "unread")
    ensures Seqs.Selects(Visible(ns, "unread"), ns, Shows("unread"), Seqs.Positions(ns, Shows("unread")))
  {
    Seqs.FilterSelects(ns, Shows("unread"));
  }

  /** Under any other key exactly the items of that type are shown, in list order. */
  lemma VisibleByType(ns: seq<Notification>, filter: string)
    requires filter != "all" && filter != "unread"
    ensures forall k :: 0 <= k < |Visible(ns, filter)| ==> Visible(ns, filter)[k].kind == filter
    ensures forall i :: 0 <= i < |ns| && ns[i].kind == filter ==> ns[i] in Visible(ns, filter)
    ensures Seqs.Selects(Visible(ns, filter), ns, Shows(filter), Seqs.Positions(ns, Shows(filter)))
  {
    Seqs.FilterSelects(ns, Shows(filter));
  }

  /** Re-applying the active filter to what is shown changes nothing. */
  lemma VisibleIdempotent(ns: seq<Notification>, filter: string)
    ensures Visible(Visible(ns, filter), filter) == Visible(ns, filter)
  {
    Seqs.FilterIdempotent(ns, Shows(filter));
  }

  /** `handleClearAll`: the list becomes empty. */
  function ClearAll(ns: seq<Notification>): (r: seq<Notification>)
    ensures |r| == 0
  {
    []
  }

  /** After "Clear All" nothing is shown, whatever filter is active. */
  lemma ClearedShowsNothing(ns: seq<Notification>, filter: string)
    ensures |ClearAll(ns)| == 0
    ensures Visible(ClearAll(ns), filter) == []
  {
  }

  /** The "unread" test reads the item's flag. */
  lemma ShowsUnread(n: Notification)
    ensures Shows("unread")(n) == n.unread
  {
    assert "unread" != "all" by {
      assert "unread"[0] != "all"[0];
    }
  }

  /** The "unread" filter over three items of which the third is read. */
  lemma UnreadOfThree(a: Notification, b: Notification, c: Notification)
    requires a.unread && b.unread && !c.unread
    ensures Visible([a, b, c], "unread") == [a, b]
  {
    var unread := Shows("unread");
    ShowsUnread(a);
    ShowsUnread(b);
    ShowsUnread(c);
    Seqs.FilterSnoc([], a, unread);
    assert [] + [a] == [a];
    Seqs.FilterSnoc([a], b, unread);
    assert [a] + [b] == [a, b];
    Seqs.FilterSnoc([a, b], c, unread);
    assert [a, b] + [c] == [a, b, c];
  }

  /** The "unread" filter over five items of which the third and fifth are read. */
  lemma UnreadOfFive(a: Notification, b: Notification, c: Notification, d: Notification, e: Notification)
    requires a.unread && b.unread && !c.unread && d.unread && !e.unread
    ensures Visible([a, b, c, d, e], "unread") == [a, b, d]
  {
    var unread := Shows("unread");
    UnreadOfThree(a, b, c);
    ShowsUnread(d);
    ShowsUnread(e);
    Seqs.FilterSnoc([a, b, c], d, unread);
    assert [a, b, c] + [d] == [a, b, c, d];
    assert [a, b] + [d] == [a, b, d];
    Seqs.FilterSnoc([a, b, c, d], e, unread);
    assert [a, b, c, d] + [e] == [a, b, c, d, e];
  }

  /** On the initial list the "unread" filter shows notifications 1, 2 and 4. */
  lemma SeedUnreadIds(mountedAt: int)
    ensures |Visible(Seed(mountedAt), "unread")| == 3
    ensures Visible(Seed(mountedAt), "unread")[0].id == 1
    ensures Visible(Seed(mountedAt), "unread")[1].id == 2
    ensures Visible(Seed(mountedAt), "unread")[2].id == 4
  {
    var s := Seed(mountedAt);
    UnreadOfFive(s[0], s[1], s[2], s[3], s[4]);
  }

  /** The label `getTimeAgo` renders. */
  datatype Age = JustNow | MinutesAgo(minutes: nat) | HoursAgo(hours: nat) | DaysAgo(days: nat)

  /** `getTimeAgo`, with the render-time clock `now` as a parameter: floored
      minutes, hours and days, the largest positive one wins. */
  function TimeAgo(now: int, time: int): (a: Age)
    ensures a.JustNow? <==> now - time < MinuteMs
    ensures a.MinutesAgo? <==> MinuteMs <= now - time < HourMs
    ensures a.HoursAgo? <==> HourMs <= now - time < DayMs
    ensures a.DaysAgo? <==> DayMs <= now - time
    ensures a.MinutesAgo? ==> a.minutes == (now - time) / MinuteMs
    ensures a.HoursAgo? ==> a.hours == (now - time) / HourMs
    ensures a.DaysAgo? ==> a.days == (now - time) / DayMs
  {
    var diff := now - time;
    var minutes := diff / 60000;
    var hours := minutes / 60;
    var days := hours / 24;
    if days > 0 then DaysAgo(days)
    else if hours > 0 then HoursAgo(hours)
    else if minutes > 0 then MinutesAgo(minutes)
    else JustNow
  }

  /** The unit suffix of a label. */
  function Unit(a: Age): string
  {
    match a
    case JustNow => ""
    case MinutesAgo(_) => "m ago"
    case HoursAgo(_) => "h ago"
    case DaysAgo(_) => "d ago"
  }

  /** The label text: "Just now", or the count in decimal followed by its unit,
      whose digits read back as the count. */
  function Render(a: Age): (r: string)
    ensures a.JustNow? ==> r == "Just now"
    ensures !a.JustNow? ==>
      && |r| > 5
      && r[|r| - 5..] == Unit(a)
      && (forall i :: 0 <= i < |r| - 5 ==> '0' <= r[i] <= '9')
      && ParseDecimal(r[..|r| - 5]) == Count(a)
  {
    if a.JustNow? then "Just now"
    else
      DigitsThenUnit(Count(a), Unit(a));
      Decimal(Count(a)) + Unit(a)
  }

  /** A count in decimal followed by a five-character unit splits back into
      the digits of the count and the unit. */
  lemma DigitsThenUnit(n: nat, unit: string)
    requires |unit| == 5
    ensures var r := Decimal(n) + unit;
      && |r| > 5
      && r[|r| - 5..] == unit
      && (forall i :: 0 <= i < |r| - 5 ==> '0' <= r[i] <= '9')
      && ParseDecimal(r[..|r| - 5]) == n
  {
    var r := Decimal(n) + unit;
    assert r[..|r| - 5] == Decimal(n);
    DecimalRoundTrip(n);
  }

  /** A rendered label determines its bucket and count. */
  lemma RenderInjective(a: Age, b: Age)
    requires Render(a) == Render(b)
    ensures a == b
  {
    if !a.JustNow? && !b.JustNow? {
      var r := Render(a);
      assert Count(a) == ParseDecimal(r[..|r| - 5]) == Count(b);
      assert Unit(a)[0] == Unit(b)[0];
    }
  }

  function Count(a: Age): nat
  {
    match a
    case JustNow => 0
    case MinutesAgo(m) => m
    case HoursAgo(h) => h
    case DaysAgo(d) => d
  }

  /** The buckets of the seeded items, read at the moment the page mounted. */
  lemma SeedAges(mountedAt: int)
    ensures TimeAgo(mountedAt, Seed(mountedAt)[0].time) == MinutesAgo(30)
    ensures TimeAgo(mountedAt, Seed(mountedAt)[1].time) == HoursAgo(1)
    ensures TimeAgo(mountedAt, Seed(mountedAt)[2].time) == HoursAgo(2)
    ensures TimeAgo(mountedAt, Seed(mountedAt)[3].time) == DaysAgo(1)
    ensures TimeAgo(mountedAt, Seed(mountedAt)[4].time) == DaysAgo(2)
  {
    var s := Seed(mountedAt);
    assert mountedAt - s[0].time == 1800000;
    assert mountedAt - s[1].time == HourMs;
    assert mountedAt - s[2].time == 2 * HourMs;
    assert mountedAt - s[3].time == DayMs;
    assert mountedAt - s[4].time == 2 * DayMs;
  }

  /** With no time elapsed beyond the seeded offsets the list reads
      "30m ago", "1h ago", "2h ago", "1d ago", "2d ago". */
  lemma SeedLabels(mountedAt: int)
    ensures Render(TimeAgo(mountedAt, Seed(mountedAt)[0].time)) == "30m ago"
    ensures Render(TimeAgo(mountedAt, Seed(mountedAt)[1].time)) == "1h ago"
    ensures Render(TimeAgo(mountedAt, Seed(mountedAt)[2].time)) == "2h ago"
    ensures Render(TimeAgo(mountedAt, Seed(mountedAt)[3].time)) == "1d ago"
    ensures Render(TimeAgo(mountedAt, Seed(mountedAt)[4].time)) == "2d ago"
  {
    SeedAges(mountedAt);
    MinuteLabel();
    HourLabels();
    DayLabels();
  }

  /** The label of the seeded age below an hour. */
  lemma MinuteLabel()
    ensures Render(MinutesAgo(30)) == "30m ago"
  {
    assert Decimal(30) == "30";
  }

  /** The labels of the seeded ages of an hour or more and below a day. */
  lemma HourLabels()
    ensures Render(HoursAgo(1)) == "1h ago" && Render(HoursAgo(2)) == "2h ago"
  {
    assert Render(HoursAgo(1)) == "1h ago" by {
      assert Decimal(1) == "1";
    }
    assert Render(HoursAgo(2)) == "2h ago" by {
      assert Decimal(2) == "2";
    }
  }

  /** The labels of the seeded ages of a day or more. */
  lemma DayLabels()
    ensures Render(DaysAgo(1)) == "1d ago" && Render(DaysAgo(2)) == "2d ago"
  {
    assert Render(DaysAgo(1)) == "1d ago" by {
      assert Decimal(1) == "1";
    }
    assert Render(DaysAgo(2)) == "2d ago" by {
      assert Decimal(2) == "2";
    }
  }

  /** Unit boundaries: exactly one hour is "1h ago", exactly one day is "1d ago",
      and anything in the future is "Just now". */
  lemma TimeAgoBoundaries(now: int, time: int)
    ensures now - time == HourMs ==> Render(TimeAgo(now, time)) == "1h ago"
    ensures now - time == DayMs ==> Render(TimeAgo(now, time)) == "1d ago"
    ensures now < time ==> Render(TimeAgo(now, time)) == "Just now"
  {
  }

  datatype Icon = MessageCircle | Check | AlertCircle | Star | UserPlus | GitPullRequest | Bell

  const IconKinds: set<string> := {"message", "task", "alert", "mention", "team", "update"}
  const ColouredKinds: set<string> := {"message", "task", "alert", "mention"}

  /** `getNotificationIcon`. */
  function IconFor(kind: string): (icon: Icon)
    ensures icon == Bell <==> kind !in IconKinds
  {
    match kind
    case "message" => MessageCircle
    case "task" => Check
    case "alert" => AlertCircle
    case "mention" => Star
    case "team" => UserPlus
    case "update" => GitPullRequest
    case _ => Bell
  }

  /** The `IconWrapper` colour (its background is the same tone, translucent). */
  function ToneFor(kind: string): (t: Tone)
    ensures t == Gray <==> kind !in ColouredKinds
  {
    match kind
    case "message" => Primary
    case "task" => Success
    case "alert" => Error
    case "mention" => Warning
    case _ => Gray
  }

  /** Each known type has its own icon; "team" and "update" share the gray of unknown types. */
  lemma IconsAndTones(a: string, b: string)
    ensures a in IconKinds && b in IconKinds && a != b ==> IconFor(a) != IconFor(b)
    ensures a in ColouredKinds && b in ColouredKinds && a != b ==> ToneFor(a) != ToneFor(b)
    ensures a !in ColouredKinds ==> ToneFor(a) == Gray
    ensures ToneFor("team") == ToneFor("update") == Gray
  {
  }
}
