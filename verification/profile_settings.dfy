/** The profile-settings dialog: three tabs over one shared form record and
    a theme picker whose choice stays inside the dialog. */
module ProfileSettings {
  import opened Forms

  /** The `useState` initial form. */
  const InitialData: Record := map[
    "name" := Str("Shubham Shrestha"),
    "email" := Str("shubham@example.com"),
    "role" := Str("Project Manager"),
    "currentPassword" := Str(""),
    "newPassword" := Str(""),
    "confirmPassword" := Str("")]

  const Tabs: seq<string> := ["profile", "security", "appearance"]

  /** The inputs each tab renders. */
  function TabInputs(tab: string): (r: set<string>)
    ensures r <= InitialData.Keys
    ensures r == {} <==> tab != "profile" && tab != "security"
  {
    if tab == "profile" then {"name", "email", "role"}
    else if tab == "security" then {"currentPassword", "newPassword", "confirmPassword"}
    else {}
  }

  /** What `renderContent` returns for a tab: a form, the theme cards, or `null`. */
  datatype Content = FormPanel | ThemePanel | NoContent

  function ContentOf(tab: string): (c: Content)
    ensures c == NoContent <==> tab !in Tabs
    ensures c == FormPanel <==> TabInputs(tab) != {}
  {
    if tab == "profile" || tab == "security" then FormPanel
    else if tab == "appearance" then ThemePanel
    else NoContent
  }

  datatype State = State(open: bool, tab: string, data: Record, theme: string)

  function Initial(open: bool): (s: State)
    ensures s.tab == Tabs[0] && s.theme == "light" && s.data == InitialData
  {
    State(open, "profile", InitialData, "light")
  }

  /** A tab button. */
  function SelectTab(s: State, i: nat): (r: State)
    requires i < |Tabs|
    ensures r.tab == Tabs[i] && r.data == s.data && r.theme == s.theme && r.open == s.open
  {
    s.(tab := Tabs[i])
  }

  /** A theme card: "light" or "dark". */
  function PickTheme(s: State, dark: bool): (r: State)
    ensures r.theme == (if dark then "dark" else "light")
    ensures r.data == s.data && r.tab == s.tab && r.open == s.open
  {
    s.(theme := if dark then "dark" else "light")
  }

  /** The card highlighted for the current theme. */
  predicate CardActive(s: State, dark: bool)
  {
    s.theme == (if dark then "dark" else "light")
  }

  /** `handleChange` on an input of the visible tab. */
  function Type(s: State, name: string, value: string): (r: State)
    requires name in TabInputs(s.tab)
    ensures r.data == Change(s.data, name, value) && r.tab == s.tab && r.theme == s.theme
  {
    s.(data := Change(s.data, name, value))
  }

  /** The primary button of the visible tab. On the two form tabs it submits,
      which only logs and closes, whatever the password fields hold. On the
      appearance tab the button sits outside any form and does nothing. */
  function PressPrimary(s: State): (r: State)
    ensures r.open == (s.open && ContentOf(s.tab) != FormPanel)
    ensures r.data == s.data && r.theme == s.theme && r.tab == s.tab
  {
    if ContentOf(s.tab) == FormPanel then s.(open := false) else s
  }

  /** One interaction with the open dialog. */
  datatype Action = ClickTab(i: nat) | ClickTheme(dark: bool) | Input(name: string, value: string)

  /** The action's control is rendered: the tab buttons always, the theme
      cards only on the appearance tab, an input only on its own tab. */
  predicate Allowed(s: State, a: Action)
  {
    match a
    case ClickTab(i) => i < |Tabs|
    case ClickTheme(_) => s.tab == "appearance"
    case Input(name, _) => name in TabInputs(s.tab)
  }

  function Step(s: State, a: Action): State
    requires Allowed(s, a)
  {
    match a
    case ClickTab(i) => SelectTab(s, i)
    case ClickTheme(dark) => PickTheme(s, dark)
    case Input(name, value) => Type(s, name, value)
  }

  /** The state reached from a given state; `NotRendered` when an action
      names a control that is not rendered at that point. */
  datatype Reached = Reachable(s: State) | NotRendered

  function Run(s: State, actions: seq<Action>): Reached
    decreases |actions|
  {
    if actions == [] then Reachable(s)
    else if !Allowed(s, actions[0]) then NotRendered
    else Run(Step(s, actions[0]), actions[1..])
  }

  /** The theme cards can be used only after switching to the appearance tab. */
  lemma ThemeCardsOnAppearanceTab(s: State, dark: bool)
    ensures Run(s, [ClickTheme(dark)]).Reachable? <==> s.tab == "appearance"
    ensures Run(s, [ClickTab(2), ClickTheme(dark)]) == Reachable(PickTheme(SelectTab(s, 2), dark))
  {
    assert [ClickTheme(dark)][1..] == [];
    assert [ClickTab(2), ClickTheme(dark)][1..] == [ClickTheme(dark)];
    var t := SelectTab(s, 2);
    assert t.tab == "appearance";
    assert Run(t, [ClickTheme(dark)]) == Run(PickTheme(t, dark), []);
  }

  predicate Invariant(s: State)
  {
    && s.tab in Tabs
    && (s.theme == "light" || s.theme == "dark")
    && s.data.Keys == InitialData.Keys
  }

  /** From the opened dialog, any session keeps a tab that renders content,
      exactly one highlighted theme card, and the six form fields. */
  lemma {:induction false} RunKeepsInvariant(s: State, actions: seq<Action>)
    requires Invariant(s)
    ensures Run(s, actions).Reachable? ==> Invariant(Run(s, actions).s)
    ensures Run(s, actions).Reachable? ==>
      ContentOf(Run(s, actions).s.tab) != NoContent
      && CardActive(Run(s, actions).s, false) != CardActive(Run(s, actions).s, true)
    decreases |actions|
  {
    if actions != [] && Allowed(s, actions[0]) {
      RunKeepsInvariant(Step(s, actions[0]), actions[1..]);
    }
  }

  /** A security submission goes through with mismatched new and confirmed
      passwords: no comparison is made. */
  lemma MismatchedPasswordsAccepted()
    ensures var s := Type(Type(SelectTab(Initial(true), 1), "newPassword", "alpha"), "confirmPassword", "beta");
      s.data["newPassword"] != s.data["confirmPassword"] && !PressPrimary(s).open
  {
  }
}
