/** The Inbox page: the message list, its (unused) filter and search state,
    and the per-row attachment, star and category badge. */
module Inbox {
  import opened Text
  import opened Tones

  datatype Message = Message(
    id: int, sender: string, subject: string, preview: string, time: string,
    category: string, hasAttachment: bool, isStarred: bool)

  const ProjectUpdate: Message := Message(1, "Shubham Shrestha", "Project Update Meeting",
    "Hi team, I wanted to share the latest updates from our project meeting yesterday...",
    "10:30 AM", "work", true, false)
  const WeekendPlans: Message := Message(2, "Sarah Wilson", "Weekend Plans",
    "Hey! Are you free this weekend? I was thinking we could grab lunch and catch up...",
    "9:15 AM", "personal", false, true)
  const Newsletter: Message := Message(3, "Tech Newsletter", "This Week in Tech: Latest Updates",
    "Discover the newest developments in AI, web development, and more in our weekly digest...",
    "Yesterday", "social", false, false)

  /** The `messages` array, in order. */
  const Messages: seq<Message> := [ProjectUpdate, WeekendPlans, Newsletter]

  datatype Page = Page(activeFilter: string, searchQuery: string)

  const InitialPage: Page := Page("all", "")

  /** The category badge colour (its background is the same tone, translucent). */
  function BadgeTone(category: string): (t: Tone)
    ensures t == Gray <==> category !in {"work", "personal", "social"}
  {
    match category
    case "work" => Primary
    case "personal" => Success
    case "social" => Warning
    case _ => Gray
  }

  /** The three categories get three different colours. */
  lemma BadgeTonesDistinct(a: string, b: string)
    requires a in {"work", "personal", "social"} && b in {"work", "personal", "social"} && a != b
    ensures BadgeTone(a) != BadgeTone(b)
  {
  }

  datatype Star = Filled | Hollow

  /** What a row shows (the random avatar colour left aside). */
  datatype Row = Row(initials: string, sender: string, paperclip: bool, star: Star, badge: Tone, category: string)

  function RowOf(m: Message): (r: Row)
    ensures r.paperclip <==> m.hasAttachment
    ensures r.star == Filled <==> m.isStarred
    ensures r.initials == Initials(m.sender) && r.badge == BadgeTone(m.category)
  {
    Row(Initials(m.sender), m.sender, m.hasAttachment, if m.isStarred then Filled else Hollow,
        BadgeTone(m.category), m.category)
  }

  function Rows(ms: seq<Message>): (r: seq<Row>)
    ensures |r| == |ms|
    ensures forall i :: 0 <= i < |ms| ==> r[i] == RowOf(ms[i])
  {
    if ms == [] then [] else [RowOf(ms[0])] + Rows(ms[1..])
  }

  /** The rendered list: `messages.map(...)`; the page state is not consulted. */
  function List(p: Page): seq<Row>
  {
    Rows(Messages)
  }

  /** Whatever filter or search text is set, all three messages are listed in
      seed order, with their attachment and star marks. */
  lemma ListIgnoresFilterAndSearch(p: Page)
    ensures List(p) == List(InitialPage)
    ensures |List(p)| == 3
    ensures forall i :: 0 <= i < 3 ==> List(p)[i].sender == Messages[i].sender
    ensures List(p)[0].paperclip && !List(p)[1].paperclip && !List(p)[2].paperclip
    ensures List(p)[0].star == Hollow && List(p)[1].star == Filled && List(p)[2].star == Hollow
  {
  }

  /** The row avatars read "SS", "SW", "TN". */
  lemma ListInitials(p: Page)
    ensures List(p)[0].initials == "SS"
    ensures List(p)[1].initials == "SW"
    ensures List(p)[2].initials == "TN"
  {
    InitialsSS(p);
    InitialsSW(p);
    InitialsTN(p);
  }

  lemma InitialsSS(p: Page)
    ensures Initials("Shubham Shrestha") == "SS" && List(p)[0].initials == "SS"
  {
    InitialsOfTwoWords("Shubham", "Shrestha");
    assert "Shubham" + " " + "Shrestha" == "Shubham Shrestha";
  }

  lemma InitialsSW(p: Page)
    ensures Initials("Sarah Wilson") == "SW" && List(p)[1].initials == "SW"
  {
    InitialsOfTwoWords("Sarah", "Wilson");
    assert "Sarah" + " " + "Wilson" == "Sarah Wilson";
  }

  lemma InitialsTN(p: Page)
    ensures Initials("Tech Newsletter") == "TN" && List(p)[2].initials == "TN"
  {
    InitialsOfTwoWords("Tech", "Newsletter");
    assert "Tech" + " " + "Newsletter" == "Tech Newsletter";
  }
}
