/** The controlled-form pattern the modals share: a record of named values,
    the `handleChange` update `{...prev, [name]: value}`, and a submit that
    hands the record on and closes the dialog without resetting it. */
module Forms {

  /** A form value: a string from an input, an array, or `null`. */
  datatype Value = Str(s: string) | List(items: seq<string>) | Null

  type Record = map<string, Value>

  /** `handleChange` for an input whose `name` attribute is `name`. */
  function Change(rec: Record, name: string, value: string): (r: Record)
    ensures r.Keys == rec.Keys + {name}
    ensures r[name] == Str(value)
    ensures forall k :: k in rec && k != name ==> r[k] == rec[k]
  {
    rec[name := Str(value)]
  }

  /** Typing into a field twice keeps only the second value. */
  lemma LastWriteWins(rec: Record, name: string, a: string, b: string)
    ensures Change(Change(rec, name, a), name, b) == Change(rec, name, b)
  {
  }

  /** Re-entering the current value changes nothing. */
  lemma WriteBackUnchanged(rec: Record, name: string, v: string)
    requires name in rec && rec[name] == Str(v)
    ensures Change(rec, name, v) == rec
  {
  }

  /** Edits to different fields do not interfere. */
  lemma ChangesCommute(rec: Record, n1: string, v1: string, n2: string, v2: string)
    requires n1 != n2
    ensures Change(Change(rec, n1, v1), n2, v2) == Change(Change(rec, n2, v2), n1, v1)
  {
  }

  /** One `change` event: the input's name and its new value. */
  datatype Edit = Edit(name: string, value: string)

  /** The record after a session of edits, applied in order. */
  function Replay(rec: Record, edits: seq<Edit>): Record
    decreases |edits|
  {
    if edits == [] then rec else Replay(Change(rec, edits[0].name, edits[0].value), edits[1..])
  }

  /** Reference definition: a field holds the value of the last edit to it, or
      `dflt` when no edit touched it. */
  function LastWrite(edits: seq<Edit>, k: string, dflt: Value): Value
  {
    if edits == [] then dflt
    else if edits[|edits| - 1].name == k then Str(edits[|edits| - 1].value)
    else LastWrite(edits[..|edits| - 1], k, dflt)
  }

  /** Every edit comes from one of the rendered inputs. */
  predicate Within(edits: seq<Edit>, inputs: set<string>)
  {
    forall i :: 0 <= i < |edits| ==> edits[i].name in inputs
  }

  lemma {:induction false} ReplaySnoc(rec: Record, edits: seq<Edit>, e: Edit)
    ensures Replay(rec, edits + [e]) == Change(Replay(rec, edits), e.name, e.value)
    decreases |edits|
  {
    if edits != [] {
      assert (edits + [e])[1..] == edits[1..] + [e];
      ReplaySnoc(Change(rec, edits[0].name, edits[0].value), edits[1..], e);
    }
  }

  /** A field no edit names keeps its default. */
  lemma {:induction false} LastWriteUntouched(edits: seq<Edit>, inputs: set<string>, k: string, dflt: Value)
    requires Within(edits, inputs) && k !in inputs
    ensures LastWrite(edits, k, dflt) == dflt
  {
    if edits != [] {
      LastWriteUntouched(edits[..|edits| - 1], inputs, k, dflt);
    }
  }

  /** Replaying a session through rendered inputs keeps the record's shape,
      leaves every non-input field alone and gives each field its last write. */
  lemma {:induction false} ReplayIsLastWrite(rec: Record, edits: seq<Edit>, inputs: set<string>)
    requires Within(edits, inputs) && inputs <= rec.Keys
    ensures Replay(rec, edits).Keys == rec.Keys
    ensures forall k :: k in rec ==> Replay(rec, edits)[k] == LastWrite(edits, k, rec[k])
    ensures forall k :: k in rec && k !in inputs ==> Replay(rec, edits)[k] == rec[k]
    decreases |edits|
  {
    if edits != [] {
      var init := edits[..|edits| - 1];
      var e := edits[|edits| - 1];
      assert init + [e] == edits;
      ReplayIsLastWrite(rec, init, inputs);
      ReplaySnoc(rec, init, e);
      forall k | k in rec && k !in inputs
        ensures Replay(rec, edits)[k] == rec[k]
      {
        LastWriteUntouched(edits, inputs, k, rec[k]);
      }
    }
  }

  /** A modal: whether it is shown, and its form state. Each dialog holds the
      state itself and only gates its markup on `isOpen`, so the state outlives
      a close as long as the parent keeps the component mounted, as Team does
      for MessageModal. */
  datatype Dialog = Dialog(open: bool, data: Record)

  function Type(d: Dialog, name: string, value: string): Dialog
  {
    d.(data := Change(d.data, name, value))
  }

  /** The Cancel button, the close button and a click on the overlay. */
  function Close(d: Dialog): (r: Dialog)
    ensures !r.open && r.data == d.data
  {
    d.(open := false)
  }

  /** Opening again, with the component still mounted. */
  function Reopen(d: Dialog): (r: Dialog)
    ensures r.open && r.data == d.data
  {
    d.(open := true)
  }

  /** The submit button: `handleSubmit` hands the record to `onSubmit` and
      calls `onClose`; the record is not checked and not reset. */
  datatype Submission = Submission(payload: Record, after: Dialog)

  function Submit(d: Dialog): (s: Submission)
    ensures s.payload == d.data
    ensures !s.after.open && s.after.data == d.data
  {
    Submission(d.data, Close(d))
  }

  /** Submitting does not reset the form: reopening shows what was sent. */
  lemma SubmitKeepsData(d: Dialog)
    ensures Reopen(Submit(d).after).data == Submit(d).payload
    ensures Submit(Reopen(Submit(d).after)) == Submit(d)
  {
  }
}
