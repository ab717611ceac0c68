/** ChatModal: the full chat popup. Its conversation follows the ChatLog rule;
    this module adds the seeded conversation and the header's avatar and
    presence dot. */
module ChatModal {
  import opened Text
  import opened Tones
  import opened ChatLog

  const Seed: seq<Message> := [
    Message(1, "Hi there! How can I help you today?", "10:30 AM", false),
    Message(2, "I had a question about the latest project updates.", "10:31 AM", true),
    Message(3, "Sure, I'd be happy to help. What specifically would you like to know?", "10:32 AM", false)
  ]

  const Initial: Chat := Chat("", Seed)

  /** Any conversation in the popup keeps the three seeded messages first and
      every id unique. */
  lemma Conversation(steps: seq<Step>)
    ensures |Run(Initial, steps).messages| >= 3
    ensures Run(Initial, steps).messages[..3] == Seed
    ensures forall i, j :: 0 <= i < j < |Run(Initial, steps).messages| ==>
      Run(Initial, steps).messages[i].id != Run(Initial, steps).messages[j].id
  {
    assert Numbered(Initial.messages);
    RunKeepsIdsUnique(Initial, steps);
  }

  /** The avatar's presence flags. */
  datatype Presence = Presence(online: bool, away: bool)

  function PresenceOf(status: string): (p: Presence)
    ensures p.online <==> status == "online"
    ensures p.away <==> status == "away"
  {
    Presence(status == "online", status == "away")
  }

  /** The presence dot: online wins, then away, else gray. */
  function DotTone(p: Presence): Tone
  {
    if p.online then Success else if p.away then Warning else Gray
  }

  /** The dot is green exactly for "online", amber exactly for "away", gray otherwise. */
  lemma StatusDot(status: string)
    ensures DotTone(PresenceOf(status)) == Success <==> status == "online"
    ensures DotTone(PresenceOf(status)) == Warning <==> status == "away"
    ensures DotTone(PresenceOf(status)) == Gray <==> status != "online" && status != "away"
  {
  }

  /** The header avatar shows the recipient's initials. */
  function AvatarText(recipient: string): (t: string)
    ensures |t| <= |Split(recipient)|
    ensures t == ToUpper(WordStarts(recipient, true))
  {
    InitialsAreUpperWordStarts(recipient);
    Initials(recipient)
  }
}
