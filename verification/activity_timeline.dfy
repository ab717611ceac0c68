/** The dashboard's activity timeline: per-type colour and icon. */
module ActivityTimeline {
  import opened Tones

  datatype Icon = CheckCircle | CommentAlt | PlusCircle | Edit | UserPlus

  const KnownTypes: set<string> := {"completed", "comment", "created", "updated", "assigned"}

  /** `getActivityIcon`; the empty sequence is `null`. */
  function IconFor(kind: string): (r: seq<Icon>)
    ensures r == [] <==> kind !in KnownTypes
    ensures |r| <= 1
  {
    match kind
    case "completed" => [CheckCircle]
    case "comment" => [CommentAlt]
    case "created" => [PlusCircle]
    case "updated" => [Edit]
    case "assigned" => [UserPlus]
    case _ => []
  }

  /** `getActivityColor`. */
  function ColorFor(kind: string): (t: Tone)
    ensures kind == "completed" ==> t == Success
    ensures kind == "comment" ==> t == Info
    ensures kind == "updated" ==> t == Warning
    ensures kind == "assigned" ==> t == Secondary
    ensures kind == "created" || kind !in KnownTypes ==> t == Primary
  {
    match kind
    case "completed" => Success
    case "comment" => Info
    case "created" => Primary
    case "updated" => Warning
    case "assigned" => Secondary
    case _ => Primary
  }

  /** The five known types get five different colours; an unknown type looks
      like "created", and only those two are primary. */
  lemma ColorsOfTypes(a: string, b: string)
    ensures a in KnownTypes && b in KnownTypes && a != b ==> ColorFor(a) != ColorFor(b)
    ensures a !in KnownTypes ==> ColorFor(a) == ColorFor("created") == Primary
    ensures ColorFor(a) == Primary <==> a == "created" || a !in KnownTypes
  {
  }

  datatype Activity = Activity(id: int, kind: string, title: string, description: string, user: string)

  /** What an entry shows: the dot colour, the header icon colour, the icon. */
  datatype Entry = Entry(dot: Tone, header: Tone, icon: seq<Icon>, title: string)

  function EntryOf(a: Activity): Entry
  {
    Entry(ColorFor(a.kind), ColorFor(a.kind), IconFor(a.kind), a.title)
  }

  /** An entry's dot and its header icon always share a colour, and an entry
      without an icon still gets the primary dot. */
  lemma EntryColours(a: Activity)
    ensures EntryOf(a).dot == EntryOf(a).header
    ensures EntryOf(a).icon == [] ==> EntryOf(a).dot == Primary
  {
  }
}
