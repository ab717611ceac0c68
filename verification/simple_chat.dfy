/** SimpleChat: the lighter chat popup the Team page opens. Its conversation
    follows the ChatLog rule; this module adds the seeded conversation and the
    one-letter avatar. */
module SimpleChat {
  import opened Text
  import opened ChatLog

  const Seed: seq<Message> := [
    Message(1, "Hi there!", "10:30 AM", false),
    Message(2, "Hello! How can I help?", "10:31 AM", true)
  ]

  const Initial: Chat := Chat("", Seed)

  /** Any conversation in the popup keeps the two seeded messages first and
      every id unique. */
  lemma Conversation(steps: seq<Step>)
    ensures |Run(Initial, steps).messages| >= 2
    ensures Run(Initial, steps).messages[..2] == Seed
    ensures forall i, j :: 0 <= i < j < |Run(Initial, steps).messages| ==>
      Run(Initial, steps).messages[i].id != Run(Initial, steps).messages[j].id
  {
    assert Numbered(Initial.messages);
    RunKeepsIdsUnique(Initial, steps);
  }

  /** The avatar letter: the recipient's first character, upper-cased. */
  function AvatarLetter(recipient: string): (t: string)
    ensures recipient == [] ==> t == []
    ensures recipient != [] ==> |t| == 1 && t[0] == UpperChar(recipient[0])
  {
    FirstUpper(recipient)
  }
}
