/** The "Send Message" dialog opened from a team member's card. */
module MessageModal {
  import opened Forms

  /** The `useState` initial message. */
  const Initial: Record := map["subject" := Str(""), "message" := Str(""), "attachment" := Null]

  const Inputs: set<string> := {"subject", "message"}
  /** `handleSubmit` only logs the record and closes: nothing is sent, and
      the text stays for the next opening. */
  function Send(d: Dialog): (r: Dialog)
    ensures !r.open && r.data == d.data
    ensures Reopen(r) == d.(open := true)
  {
    Submit(d).after
  }

  /** Through any session the attachment stays `null`, subject and message
      hold their last writes, and sending keeps them. */
  lemma SessionKeepsAttachmentNull(edits: seq<Edit>)
    requires Within(edits, Inputs)
    ensures Replay(Initial, edits).Keys == Initial.Keys
    ensures Replay(Initial, edits)["attachment"] == Null
    ensures Replay(Initial, edits)["subject"] == LastWrite(edits, "subject", Str(""))
    ensures Send(Dialog(true, Replay(Initial, edits))).data["attachment"] == Null
  {
    ReplayIsLastWrite(Initial, edits, Inputs);
  }
}
