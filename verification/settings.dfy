/** The Settings page: a two-level map of sections to settings, updated by
    `handleToggle` and `handleSelect`, and the section navigation that picks
    which panel of controls is rendered. */
module Settings {
  import Seqs

  /** A setting holds either a string (select boxes) or a boolean (toggles). */
  datatype Value = Text(text: string) | Flag(on: bool)

  type Section = map<string, Value>
  type Store = map<string, Section>

  /** Result of a handler: the new store, or the `TypeError` JavaScript throws
      when `prev[section]` is `undefined` and is then indexed. */
  datatype Outcome = Updated(store: Store) | TypeError

  /** The `useState` initial value. */
  function Initial(): Store
  {
    map[
      "account" := map[
        "email" := Text("user@example.com"),
        "language" := Text("english"),
        "timezone" := Text("UTC+0")],
      "notifications" := map[
        "email" := Flag(true),
        "push" := Flag(true),
        "desktop" := Flag(false),
        "mentions" := Flag(true),
        "updates" := Flag(true)],
      "appearance" := map[
        "theme" := Text("dark"),
        "density" := Text("comfortable"),
        "animations" := Flag(true),
        "fontSize" := Text("medium"),
        "contrast" := Text("default")],
      "privacy" := map[
        "profileVisibility" := Text("public"),
        "activityStatus" := Flag(true),
        "dataSharing" := Flag(false),
        "twoFactor" := Flag(true)]]
  }

  /** JavaScript `!prev[section][setting]`: `!undefined` is true, `!b` negates a
      boolean and `!s` is true only for the empty string. */
  function Negation(sec: Section, setting: string): bool
  {
    if setting !in sec then true
    else match sec[setting]
      case Flag(b) => !b
      case Text(s) => s == ""
  }

  /** `handleToggle(section, setting)`. */
  function Toggle(st: Store, section: string, setting: string): (o: Outcome)
    ensures o.TypeError? <==> section !in st
    ensures o.Updated? ==>
      && o.store.Keys == st.Keys
      && o.store[section].Keys == st[section].Keys + {setting}
      && o.store[section][setting] == Flag(Negation(st[section], setting))
      && (forall k :: k in st[section] && k != setting ==> o.store[section][k] == st[section][k])
      && (forall s :: s in st && s != section ==> o.store[s] == st[s])
  {
    if section !in st then TypeError
    else Updated(st[section := st[section][setting := Flag(Negation(st[section], setting))]])
  }

  /** `handleSelect(section, setting, value)`; spreading a missing section
      yields an empty one, so this never fails. */
  function Select(st: Store, section: string, setting: string, value: Value): (r: Store)
    ensures r.Keys == st.Keys + {section}
    ensures r[section].Keys == (if section in st then st[section].Keys else {}) + {setting}
    ensures r[section][setting] == value
    ensures forall k :: section in st && k in st[section] && k != setting ==> r[section][k] == st[section][k]
    ensures forall s :: s in st && s != section ==> r[s] == st[s]
  {
    var sec := if section in st then st[section] else map[];
    st[section := sec[setting := value]]
  }

  /** Toggling a boolean setting twice restores the whole store. */
  lemma ToggleTwiceRestores(st: Store, section: string, setting: string)
    requires section in st && setting in st[section] && st[section][setting].Flag?
    ensures Toggle(st, section, setting).Updated?
    ensures Toggle(Toggle(st, section, setting).store, section, setting) == Updated(st)
  {
    var once := Toggle(st, section, setting).store;
    var twice := Toggle(once, section, setting).store;
    assert twice[section] == st[section];
    assert twice == st;
  }

  /** Toggling a string setting turns it into a boolean: twice gives
      `Flag(s != "")`, so the text is lost. */
  lemma ToggleTwiceOnText(st: Store, section: string, setting: string)
    requires section in st && setting in st[section] && st[section][setting].Text?
    ensures Toggle(st, section, setting).Updated?
    ensures Toggle(Toggle(st, section, setting).store, section, setting).store[section][setting]
         == Flag(st[section][setting].text != "")
  {
  }

  /** Selecting the same value twice is the same as selecting it once. */
  lemma SelectIdempotent(st: Store, section: string, setting: string, value: Value)
    ensures Select(Select(st, section, setting, value), section, setting, value)
         == Select(st, section, setting, value)
  {
    var once := Select(st, section, setting, value);
    assert Select(once, section, setting, value)[section] == once[section];
  }

  /** The navigation entries, in order. */
  const SectionIds: seq<string> := ["account", "notifications", "appearance", "privacy", "language", "security"]

  const InitialSection: string := "account"

  /** The number of navigation entries highlighted for `active`. */
  function ActiveCount(active: string): nat
  {
    |Seqs.Filter(SectionIds, Seqs.Equals(active))|
  }

  /** Exactly one entry is highlighted when `active` is a section id (as it
      always is, since only the entries set it); none otherwise. */
  lemma OneActiveSection(active: string)
    ensures ActiveCount(active) == if active in SectionIds then 1 else 0
    ensures ActiveCount(InitialSection) == 1
  {
    Seqs.DistinctMatchesOnce(SectionIds, active);
    Seqs.DistinctMatchesOnce(SectionIds, InitialSection);
  }

  /** A control on a panel: a select box or a toggle bound to one cell. */
  datatype Control = SelectBox(section: string, setting: string) | Switch(section: string, setting: string)

  datatype Panel = AccountPanel | NotificationsPanel | AppearancePanel | PrivacyPanel

  /** `renderSectionContent`: the panel for `active`, or nothing (`null`). */
  function Content(active: string): (p: seq<Panel>)
    ensures |p| <= 1
    ensures p == [] <==> active !in {"account", "notifications", "appearance", "privacy"}
  {
    match active
    case "account" => [AccountPanel]
    case "notifications" => [NotificationsPanel]
    case "appearance" => [AppearancePanel]
    case "privacy" => [PrivacyPanel]
    case _ => []
  }

  /** The "Language" and "Security" entries render no panel. */
  lemma UnimplementedSections()
    ensures Content("language") == [] && Content("security") == []
    ensures forall id :: id in SectionIds && id != "language" && id != "security" ==> |Content(id)| == 1
  {
  }

  /** The controls each panel renders, and the cell each one is bound to. */
  function Controls(p: Panel): seq<Control>
  {
    match p
    case AccountPanel => [SelectBox("account", "email"), SelectBox("account", "language")]
    case NotificationsPanel => [Switch("notifications", "email"), Switch("notifications", "push")]
    case AppearancePanel => [SelectBox("appearance", "theme"), Switch("appearance", "animations")]
    case PrivacyPanel => [SelectBox("privacy", "profileVisibility"), Switch("privacy", "twoFactor")]
  }

  /** Every control of every panel. */
  const AllControls: seq<Control> :=
    Controls(AccountPanel) + Controls(NotificationsPanel) + Controls(AppearancePanel) + Controls(PrivacyPanel)

  /** The cell a control is bound to exists and holds the kind of value the
      control reads: a string for a select box, a boolean for a toggle. */
  predicate Fits(st: Store, c: Control)
  {
    && c.section in st
    && c.setting in st[c.section]
    && (c.Switch? ==> st[c.section][c.setting].Flag?)
    && (c.SelectBox? ==> st[c.section][c.setting].Text?)
  }

  predicate WellTyped(st: Store)
  {
    forall i :: 0 <= i < |AllControls| ==> Fits(st, AllControls[i])
  }

  /** No two controls are bound to the same cell. */
  lemma ControlsBindDistinctCells()
    ensures forall i, j :: 0 <= i < j < |AllControls| ==>
      (AllControls[i].section, AllControls[i].setting) != (AllControls[j].section, AllControls[j].setting)
  {
  }

  /** One user interaction: flipping a toggle or picking an option. */
  datatype Action = Flip(control: Control) | Pick(control: Control, option: string)

  /** The handler a rendered control calls: toggles call `handleToggle`,
      select boxes call `handleSelect` with the chosen option. */
  function Apply(st: Store, a: Action): Outcome
  {
    match a
    case Flip(c) => Toggle(st, c.section, c.setting)
    case Pick(c, v) => Updated(Select(st, c.section, c.setting, Text(v)))
  }

  /** An action matches the control it names. */
  predicate Rendered(a: Action)
  {
    && a.control in AllControls
    && (a.Flip? <==> a.control.Switch?)
  }

  lemma InitialWellTyped()
    ensures WellTyped(Initial())
  {
  }

  /** Using the rendered controls never throws and keeps every control's cell
      of the kind it expects. */
  lemma ApplyPreservesWellTyped(st: Store, a: Action)
    requires WellTyped(st) && Rendered(a)
    ensures Apply(st, a).Updated?
    ensures WellTyped(Apply(st, a).store)
  {
    assert Fits(st, a.control);
    var st' := Apply(st, a).store;
    ControlsBindDistinctCells();
    forall i | 0 <= i < |AllControls|
      ensures Fits(st', AllControls[i])
    {
      var c := AllControls[i];
      assert Fits(st, c);
      if c.section == a.control.section && c.setting == a.control.setting {
        var j :| 0 <= j < |AllControls| && AllControls[j] == a.control;
        assert i == j;
      }
    }
  }

  /** Replaying a session of interactions from the initial settings. */
  function Replay(st: Store, actions: seq<Action>): Outcome
    decreases |actions|
  {
    if actions == [] then Updated(st)
    else match Apply(st, actions[0])
      case TypeError => TypeError
      case Updated(next) => Replay(next, actions[1..])
  }

  /** Any session on the rendered controls succeeds and, after it, pressing any
      toggle twice restores the settings. */
  lemma {:induction false} SessionSucceeds(st: Store, actions: seq<Action>)
    requires WellTyped(st)
    requires forall i :: 0 <= i < |actions| ==> Rendered(actions[i])
    ensures Replay(st, actions).Updated?
    ensures WellTyped(Replay(st, actions).store)
    decreases |actions|
  {
    if actions != [] {
      ApplyPreservesWellTyped(st, actions[0]);
      SessionSucceeds(Apply(st, actions[0]).store, actions[1..]);
    }
  }

  /** From the page's initial state every reachable store answers a double
      press of a rendered toggle with the store it started from. */
  lemma ReachableTogglesRestore(actions: seq<Action>, c: Control)
    requires forall i :: 0 <= i < |actions| ==> Rendered(actions[i])
    requires Rendered(Flip(c))
    ensures Replay(Initial(), actions).Updated?
    ensures var st := Replay(Initial(), actions).store;
      Toggle(st, c.section, c.setting).Updated? &&
      Toggle(Toggle(st, c.section, c.setting).store, c.section, c.setting) == Updated(st)
  {
    InitialWellTyped();
    SessionSucceeds(Initial(), actions);
    var st := Replay(Initial(), actions).store;
    assert Fits(st, c);
    ToggleTwiceRestores(st, c.section, c.setting);
  }
}
