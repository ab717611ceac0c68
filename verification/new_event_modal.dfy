/** The "Create New Event" dialog of the calendar. */
module NewEventModal {
  import opened Forms

  /** The `useState` initial event. */
  const Initial: Record := map[
    "title" := Str(""),
    "description" := Str(""),
    "startDate" := Str(""),
    "startTime" := Str(""),
    "endDate" := Str(""),
    "endTime" := Str(""),
    "location" := Str(""),
    "category" := Str("meeting"),
    "participants" := Str("")]

  /** Every field has a rendered input. */
  const Inputs: set<string> := {"title", "description", "startDate", "startTime", "endDate", "endTime", "location", "category", "participants"}

  const CategoryOptions: seq<string> := ["meeting", "task", "reminder", "deadline", "other"]

  /** Every field is a string with an input; the category defaults to the
      first option. */
  lemma Defaults()
    ensures Initial.Keys == Inputs
    ensures forall k :: k in Initial ==> Initial[k].Str?
    ensures Initial["category"] == Str(CategoryOptions[0])
    ensures forall k :: k in Initial && k != "category" ==> Initial[k] == Str("")
  {
  }

  /** The submitted event is whatever the fields hold, in particular one that
      ends before it starts: no ordering of start and end is checked. */
  lemma EndBeforeStartAccepted()
    ensures var d := Dialog(true, Change(Change(Change(Change(Initial,
                  "startDate", "2024-03-02"), "startTime", "10:00"),
                  "endDate", "2024-03-01"), "endTime", "09:00"));
      && Submit(d).payload["startDate"] == Str("2024-03-02")
      && Submit(d).payload["endDate"] == Str("2024-03-01")
      && !Submit(d).after.open
  {
  }

  /** A session through the rendered inputs keeps every field a string, so the
      event handed on has the initial shape. */
  lemma SessionKeepsShape(edits: seq<Edit>)
    requires Within(edits, Inputs)
    ensures Replay(Initial, edits).Keys == Inputs
    ensures forall k :: k in Inputs ==> Replay(Initial, edits)[k].Str?
  {
    Defaults();
    ReplayIsLastWrite(Initial, edits, Inputs);
    forall k | k in Inputs
      ensures Replay(Initial, edits)[k].Str?
    {
      LastWriteIsString(edits, k, Initial[k]);
    }
  }

  lemma {:induction false} LastWriteIsString(edits: seq<Edit>, k: string, dflt: Value)
    requires dflt.Str?
    ensures LastWrite(edits, k, dflt).Str?
  {
    if edits != [] {
      LastWriteIsString(edits[..|edits| - 1], k, dflt);
    }
  }
}
