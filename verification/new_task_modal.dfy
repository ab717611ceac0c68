/** The "Create New Task" dialog. */
module NewTaskModal {
  import opened Forms

  /** The `useState` initial task. */
  const Initial: Record := map[
    "title" := Str(""),
    "description" := Str(""),
    "dueDate" := Str(""),
    "dueTime" := Str(""),
    "priority" := Str("medium"),
    "category" := Str("general"),
    "tags" := List([]),
    "assignees" := List([]),
    "attachments" := List([])]

  /** The `name` attributes of the rendered inputs, selects and text area. */
  const Inputs: set<string> := {"title", "description", "dueDate", "dueTime", "priority", "category"}

  const PriorityOptions: seq<string> := ["low", "medium", "high", "urgent"]
  const CategoryOptions: seq<string> := ["general", "development", "design", "marketing", "research"]

  /** The default priority and category are among the offered options, and
      the three list fields start empty. */
  lemma Defaults()
    ensures Initial["priority"].Str? && Initial["priority"].s in PriorityOptions
    ensures Initial["category"].Str? && Initial["category"].s in CategoryOptions
    ensures forall k :: k in Initial && k !in Inputs ==> Initial[k] == List([])
    ensures Inputs <= Initial.Keys
  {
  }

  /** Whatever the user types, tags, assignees and attachments stay empty
      arrays: the chips, avatars and drop area shown for them are static. */
  lemma ListsStayEmpty(edits: seq<Edit>)
    requires Within(edits, Inputs)
    ensures Replay(Initial, edits).Keys == Initial.Keys
    ensures Replay(Initial, edits)["tags"] == List([])
    ensures Replay(Initial, edits)["assignees"] == List([])
    ensures Replay(Initial, edits)["attachments"] == List([])
  {
    Defaults();
    ReplayIsLastWrite(Initial, edits, Inputs);
  }

  /** Submitting after any session hands on the record as edited: each input
      holds its last write, and the three lists are still empty. */
  lemma SessionSubmits(edits: seq<Edit>)
    requires Within(edits, Inputs)
    ensures Submit(Dialog(true, Replay(Initial, edits))).payload.Keys == Initial.Keys
    ensures forall k :: k in Inputs ==> Submit(Dialog(true, Replay(Initial, edits))).payload[k] == LastWrite(edits, k, Initial[k])
    ensures Submit(Dialog(true, Replay(Initial, edits))).payload["tags"] == List([])
    ensures !Submit(Dialog(true, Replay(Initial, edits))).after.open
  {
    Defaults();
    ReplayIsLastWrite(Initial, edits, Inputs);
    ListsStayEmpty(edits);
  }
}
