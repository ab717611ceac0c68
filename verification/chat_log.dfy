/** The conversation both chat popups keep: a draft box and a message log to
    which sending appends the draft as an outgoing message numbered after the
    existing ones. ChatModal names the fields `content`/`isSent`, SimpleChat
    `text`/`sent`; the rule is the same. */
module ChatLog {
  import opened Text

  datatype Message = Message(id: int, text: string, time: string, sent: bool)

  datatype Chat = Chat(draft: string, messages: seq<Message>)

  /** The input's `onChange`: the draft becomes the typed text. */
  function Edit(c: Chat, text: string): (r: Chat)
    ensures r.draft == text && r.messages == c.messages
  {
    c.(draft := text)
  }

  /** The send handler; `clock` is the formatted local time it stamps. */
  function Send(c: Chat, clock: string): (r: Chat)
    ensures IsBlank(c.draft) ==> r == c
    ensures !IsBlank(c.draft) ==>
      && |r.messages| == |c.messages| + 1
      && r.messages[..|c.messages|] == c.messages
      && r.messages[|c.messages|] == Message(|c.messages| + 1, c.draft, clock, true)
      && r.draft == ""
  {
    TrimEmptyIffBlank(c.draft);
    if Trim(c.draft) == [] then c
    else Chat("", c.messages + [Message(|c.messages| + 1, c.draft, clock, true)])
  }

  /** A draft of spaces, tabs or newlines is ignored. */
  lemma BlankDraftIgnored(c: Chat, clock: string)
    requires forall i :: 0 <= i < |c.draft| ==> c.draft[i] in {' ', '\t', '\n'}
    ensures Send(c, clock) == c
  {
  }

  /** Every message's id is its position plus one. */
  predicate Numbered(ms: seq<Message>)
  {
    forall i :: 0 <= i < |ms| ==> ms[i].id == i + 1
  }

  /** Numbered messages have pairwise distinct ids. */
  lemma NumberedIdsUnique(ms: seq<Message>)
    requires Numbered(ms)
    ensures forall i, j :: 0 <= i < j < |ms| ==> ms[i].id != ms[j].id
  {
  }

  /** Sending keeps ids equal to position plus one. */
  lemma SendKeepsNumbered(c: Chat, clock: string)
    requires Numbered(c.messages)
    ensures Numbered(Send(c, clock).messages)
  {
  }

  /** One interaction with the chat box: type a draft, then press send. */
  datatype Step = Step(text: string, clock: string)

  function Run(c: Chat, steps: seq<Step>): Chat
    decreases |steps|
  {
    if steps == [] then c
    else Run(Send(Edit(c, steps[0].text), steps[0].clock), steps[1..])
  }

  /** However the conversation goes, it keeps the earlier log as a prefix and
      every id stays unique. */
  lemma {:induction false} RunKeepsIdsUnique(c: Chat, steps: seq<Step>)
    requires Numbered(c.messages)
    ensures Numbered(Run(c, steps).messages)
    ensures |c.messages| <= |Run(c, steps).messages|
    ensures Run(c, steps).messages[..|c.messages|] == c.messages
    ensures forall i, j :: 0 <= i < j < |Run(c, steps).messages| ==>
      Run(c, steps).messages[i].id != Run(c, steps).messages[j].id
    decreases |steps|
  {
    if steps != [] {
      var next := Send(Edit(c, steps[0].text), steps[0].clock);
      SendKeepsNumbered(Edit(c, steps[0].text), steps[0].clock);
      RunKeepsIdsUnique(next, steps[1..]);
      var ms := Run(c, steps).messages;
      assert ms[..|next.messages|] == next.messages;
      assert next.messages[..|c.messages|] == c.messages;
      assert ms[..|c.messages|] == ms[..|next.messages|][..|c.messages|];
    }
  }
}
