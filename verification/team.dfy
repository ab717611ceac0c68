/** The Team page: the member grid, its (unused) filter and search state, and
    the message and chat popups it opens for a member. */
module Team {
  import opened Text
  import opened Tones
  import ChatModal

  datatype Stats = Stats(projects: nat, tasks: nat, completed: nat)
  datatype Project = Project(name: string, color: string)
  datatype Member = Member(id: int, name: string, role: string, status: string, stats: Stats, projects: seq<Project>)

  const Sarah: Member := Member(1, "Sarah Johnson", "Product Manager", "online", Stats(12, 34, 89),
    [Project("Mobile App", "#3B82F6"), Project("Dashboard", "#10B981")])
  const Michael: Member := Member(2, "Michael Chen", "Senior Developer", "away", Stats(8, 27, 92),
    [Project("API Integration", "#F59E0B"), Project("Cloud Migration", "#8B5CF6")])
  const Emily: Member := Member(3, "Emily Rodriguez", "UI/UX Designer", "online", Stats(15, 41, 95),
    [Project("Design System", "#EF4444"), Project("Mobile App", "#3B82F6")])
  const David: Member := Member(4, "David Kim", "Frontend Developer", "offline", Stats(6, 19, 87),
    [Project("Dashboard", "#10B981"), Project("Website Redesign", "#8B5CF6")])

  /** The `teamMembers` array, in order. */
  const Members: seq<Member> := [Sarah, Michael, Emily, David]

  /** Who a popup is addressed to: `null` or a member's name. */
  datatype Recipient = Nobody | Named(name: string)

  datatype Popup = Popup(isOpen: bool, recipient: Recipient)

  const Closed: Popup := Popup(false, Nobody)

  datatype Page = Page(activeFilter: string, searchQuery: string, messagePopup: Popup, chatPopup: Popup)

  const InitialPage: Page := Page("all", "", Closed, Closed)

  /** The Message button of a member card. */
  function OpenMessage(p: Page, m: Member): (r: Page)
    ensures r.messagePopup == Popup(true, Named(m.name))
    ensures r.chatPopup == p.chatPopup && r.activeFilter == p.activeFilter && r.searchQuery == p.searchQuery
  {
    p.(messagePopup := Popup(true, Named(m.name)))
  }

  /** The Chat button of a member card. */
  function OpenChat(p: Page, m: Member): (r: Page)
    ensures r.chatPopup == Popup(true, Named(m.name))
    ensures r.messagePopup == p.messagePopup && r.activeFilter == p.activeFilter && r.searchQuery == p.searchQuery
  {
    p.(chatPopup := Popup(true, Named(m.name)))
  }

  /** The message popup's `onClose`. */
  function CloseMessage(p: Page): (r: Page)
    ensures !r.messagePopup.isOpen && r.messagePopup.recipient == Nobody
    ensures r.chatPopup == p.chatPopup && r.activeFilter == p.activeFilter && r.searchQuery == p.searchQuery
  {
    p.(messagePopup := Closed)
  }

  /** The chat popup's `onClose`. */
  function CloseChat(p: Page): (r: Page)
    ensures !r.chatPopup.isOpen && r.chatPopup.recipient == Nobody
    ensures r.messagePopup == p.messagePopup && r.activeFilter == p.activeFilter && r.searchQuery == p.searchQuery
  {
    p.(chatPopup := Closed)
  }

  /** Closing is idempotent, and open-then-close leaves the page as it was
      whenever that popup was closed before. */
  lemma PopupRoundTrip(p: Page, m: Member)
    ensures CloseMessage(CloseMessage(p)) == CloseMessage(p)
    ensures CloseChat(CloseChat(p)) == CloseChat(p)
    ensures p.messagePopup == Closed ==> CloseMessage(OpenMessage(p, m)) == p
    ensures p.chatPopup == Closed ==> CloseChat(OpenChat(p, m)) == p
  {
  }

  /** The filter buttons and the search box. */
  function SetFilter(p: Page, f: string): Page { p.(activeFilter := f) }
  function SetSearch(p: Page, q: string): Page { p.(searchQuery := q) }

  /** The presence dot of a member avatar. */
  function PresenceTone(status: string): (t: Tone)
    ensures t == Success <==> status == "online"
    ensures t == Warning <==> status == "away"
    ensures t == Gray <==> status != "online" && status != "away"
  {
    match status
    case "online" => Success
    case "away" => Warning
    case "offline" => Gray
    case _ => Gray
  }

  /** The Team avatar dot and the ChatModal avatar dot agree on every status. */
  lemma PresenceMatchesChat(status: string)
    ensures PresenceTone(status) == ChatModal.DotTone(ChatModal.PresenceOf(status))
    ensures PresenceTone(status) == Gray <==> status != "online" && status != "away"
  {
  }

  /** What a member card shows (the random avatar colour left aside). */
  datatype Card = Card(initials: string, name: string, role: string, dot: Tone, projects: seq<string>)

  function ProjectNames(ps: seq<Project>): (r: seq<string>)
    ensures |r| == |ps| && forall i :: 0 <= i < |ps| ==> r[i] == ps[i].name
  {
    if ps == [] then [] else [ps[0].name] + ProjectNames(ps[1..])
  }

  function CardOf(m: Member): Card
  {
    Card(Initials(m.name), m.name, m.role, PresenceTone(m.status), ProjectNames(m.projects))
  }

  function Cards(ms: seq<Member>): (r: seq<Card>)
    ensures |r| == |ms|
    ensures forall i :: 0 <= i < |ms| ==> r[i] == CardOf(ms[i])
  {
    if ms == [] then [] else [CardOf(ms[0])] + Cards(ms[1..])
  }

  /** The rendered grid: `teamMembers.map(...)`; the page state is not consulted. */
  function Grid(p: Page): seq<Card>
  {
    Cards(Members)
  }

  /** Whatever filter is active and whatever is typed in the search box, the
      grid shows all four members in seed order. */
  lemma GridIgnoresFilterAndSearch(p: Page, f: string, q: string)
    ensures Grid(SetSearch(SetFilter(p, f), q)) == Grid(InitialPage)
    ensures |Grid(p)| == |Members|
    ensures forall i :: 0 <= i < |Members| ==> Grid(p)[i].name == Members[i].name
  {
  }

  /** The grid's avatar initials: "SJ", "MC", "ER", "DK". */
  lemma GridInitials(p: Page)
    ensures Grid(p)[0].initials == "SJ"
    ensures Grid(p)[1].initials == "MC"
    ensures Grid(p)[2].initials == "ER"
    ensures Grid(p)[3].initials == "DK"
  {
    InitialsSJ(p);
    InitialsMC(p);
    InitialsER(p);
    InitialsDK(p);
  }

  lemma InitialsSJ(p: Page)
    ensures Initials("Sarah Johnson") == "SJ" && Grid(p)[0].initials == "SJ"
  {
    InitialsOfTwoWords("Sarah", "Johnson");
    assert "Sarah" + " " + "Johnson" == "Sarah Johnson";
  }

  lemma InitialsMC(p: Page)
    ensures Initials("Michael Chen") == "MC" && Grid(p)[1].initials == "MC"
  {
    InitialsOfTwoWords("Michael", "Chen");
    assert "Michael" + " " + "Chen" == "Michael Chen";
  }

  lemma InitialsER(p: Page)
    ensures Initials("Emily Rodriguez") == "ER" && Grid(p)[2].initials == "ER"
  {
    InitialsOfTwoWords("Emily", "Rodriguez");
    assert "Emily" + " " + "Rodriguez" == "Emily Rodriguez";
  }

  lemma InitialsDK(p: Page)
    ensures Initials("David Kim") == "DK" && Grid(p)[3].initials == "DK"
  {
    InitialsOfTwoWords("David", "Kim");
    assert "David" + " " + "Kim" == "David Kim";
  }
}
