# TaskFlow UI state, modelled in Dafny

TaskFlow is a React task-management front end. Almost all of it is markup and
styling. The logic it does contain is small and exact:

- the derived views of its pages: the notification filter, the relative-time label,
  avatar initials and the per-type colour and icon lookups;
- the functional state updates behind them: the two-level settings map, the
  append-only chat logs and the controlled form records of the modals;
- a handful of UI state machines: the theme, the mobile navigation drawer, the
  collapsible sidebar, the tabs and theme cards of the profile dialog.

This project models each of those as immutable data and pure functions, one module
per component, and proves what the components promise about them.

| module | component |
|---|---|
| `Notifications` | `frontend/src/pages/Notifications.jsx` |
| `Settings` | `frontend/src/pages/Settings.jsx` |
| `ChatLog`, `ChatModal`, `SimpleChat` | `src/components/team/ChatModal.jsx`, `src/components/team/SimpleChat.jsx` |
| `Team`, `Inbox` | `src/pages/Team.jsx`, `src/pages/Inbox.jsx` |
| `Sidebar`, `Layout`, `App` | `frontend/src/components/common/Sidebar.jsx`, `frontend/src/components/common/Layout.jsx`, `src/App.jsx` |
| `StatsCard`, `ActivityTimeline` | `src/components/dashboard/StatsCard.jsx`, `frontend/src/components/dashboard/ActivityTimeline.jsx` |
| `ProfileSettings`, `NewTaskModal`, `NewEventModal`, `MessageModal` | the four dialogs under `src/components/` |

Several modules share helpers:

- `Text`: `trim()`, `split(' ')`/`join(' ')`, the `getInitials` pipeline, ASCII
  `toUpperCase` and the decimal rendering of counts;
- `Seqs`: a stable `filter` with an index-level description of what it keeps;
- `Tones`: the theme colour keys;
- `ChatLog`: the send rule both chat popups share, which appends the draft as a message numbered after the log;
- `Forms`: the `{...prev, [name]: value}` change handler, replays of edit sessions and
  the submit-then-close step.

The modelling choices:

- Clocks are parameters. `Date.now()` at mount becomes `mountedAt`, the render-time
  clock becomes `now`, and the formatted send time of a chat message becomes `clock`.
- The window width and the router's pathname are inputs.
- Each React handler is one atomic transition from the current state.

## Model

| member | source | states |
|---|---|---|
| Seqs.Filter | frontend/src/pages/Notifications.jsx:308-312 | the filtered list is no longer than the input; every kept item passes the test and comes from the input; every input item that passes is kept |
| Seqs.FilterSelects | frontend/src/pages/Notifications.jsx:308-312 | the filter result is exactly the input items at the ascending positions whose item passes the test, so order is preserved and nothing else is kept |
| Seqs.FilterSnoc | frontend/src/pages/Notifications.jsx:308-312 | filtering a list with one more item appends that item exactly when it passes |
| Seqs.FilterCons | frontend/src/pages/Notifications.jsx:308-312 | filtering a list with one more item in front prepends that item exactly when it passes |
| Seqs.FilterIdempotent | frontend/src/pages/Notifications.jsx:308-312 | filtering an already filtered list with the same test changes nothing |
| Seqs.FilterKeepsAll | frontend/src/pages/Notifications.jsx:309 | a test every item passes returns the list unchanged |
| Seqs.DistinctMatchesOnce | frontend/src/pages/Settings.jsx:357-364 | in a list of distinct ids, exactly one entry equals a value that occurs and none equals one that does not |
| Notifications.Shows | frontend/src/pages/Notifications.jsx:308-312 | the per-item test passes every item under "all", reads the unread flag under "unread", and compares the type with any other key |
| Notifications.Visible | frontend/src/pages/Notifications.jsx:308-312 | the visible list is no longer than the list; every visible item is in the list and passes the active test; every list item that passes is visible |
| Notifications.VisibleAll | frontend/src/pages/Notifications.jsx:309 | the "all" filter shows the list as it is, same items, same order |
| Notifications.VisibleUnread | frontend/src/pages/Notifications.jsx:310 | the "unread" filter shows exactly the unread items, in list order |
| Notifications.VisibleByType | frontend/src/pages/Notifications.jsx:311 | any other key shows exactly the items whose type equals the key, in list order |
| Notifications.VisibleIdempotent | frontend/src/pages/Notifications.jsx:308-312 | re-applying the active filter to the visible list changes nothing |
| Notifications.ClearAll | frontend/src/pages/Notifications.jsx:304-306 | "Clear All" leaves no notifications |
| Notifications.ClearedShowsNothing | frontend/src/pages/Notifications.jsx:304-306 | after "Clear All" the list is empty and every filter shows nothing |
| Notifications.UnreadOfFive | frontend/src/pages/Notifications.jsx:310 | of five items whose third and fifth are read, the "unread" filter keeps the first, second and fourth |
| Notifications.SeedUnreadIds | frontend/src/pages/Notifications.jsx:248-294 | on the initial list the "unread" filter shows notifications 1, 2 and 4 |
| Notifications.TimeAgo | frontend/src/pages/Notifications.jsx:233-244 | "Just now" exactly when less than a minute has passed, including any future time; minutes below an hour, hours below a day, days beyond; each count is the floored quotient of the elapsed milliseconds |
| Notifications.Render | frontend/src/pages/Notifications.jsx:240-243 | the first bucket reads "Just now"; any other label ends in "m ago", "h ago" or "d ago" for its bucket, and what comes before is digits that read back as the count |
| Notifications.RenderInjective | frontend/src/pages/Notifications.jsx:240-243 | two labels are equal only when bucket and count are equal |
| Notifications.TimeAgoBoundaries | frontend/src/pages/Notifications.jsx:236-243 | exactly one hour reads "1h ago", not "60m ago"; exactly one day reads "1d ago"; a future time reads "Just now" |
| Notifications.SeedAges | frontend/src/pages/Notifications.jsx:248-294 | at mount the five seeded items fall in the buckets 30 minutes, 1 hour, 2 hours, 1 day, 2 days |
| Notifications.SeedLabels | frontend/src/pages/Notifications.jsx:248-294 | at mount the seeded items read "30m ago", "1h ago", "2h ago", "1d ago", "2d ago" |
| Notifications.IconFor | frontend/src/pages/Notifications.jsx:214-231 | the bell icon is shown exactly for types outside the six known ones |
| Notifications.ToneFor | frontend/src/pages/Notifications.jsx:136-153 | the icon colour is gray exactly for types other than message, task, alert and mention |
| Notifications.IconsAndTones | frontend/src/pages/Notifications.jsx:214-231 | the six known types get six different icons; the four coloured types get four different colours; every other type, "team" and "update" included, is gray |
| Settings.Toggle | frontend/src/pages/Settings.jsx:366-374 | toggling a missing section throws; otherwise the cell becomes the JavaScript negation of its old value and every other cell and section is unchanged |
| Settings.Select | frontend/src/pages/Settings.jsx:376-384 | the cell becomes the chosen value, a missing section is created, and every other cell and section is unchanged |
| Settings.ToggleTwiceRestores | frontend/src/pages/Settings.jsx:366-374 | toggling a boolean cell twice restores the whole settings object |
| Settings.ToggleTwiceOnText | frontend/src/pages/Settings.jsx:371 | toggling a string cell twice leaves a boolean, true exactly when the string was non-empty |
| Settings.SelectIdempotent | frontend/src/pages/Settings.jsx:376-384 | selecting the same value twice equals selecting it once |
| Settings.OneActiveSection | frontend/src/pages/Settings.jsx:550-556 | exactly one navigation entry is highlighted for a section id, none for any other string, and the initial "account" highlights one |
| Settings.Content | frontend/src/pages/Settings.jsx:386-545 | a panel is rendered exactly for account, notifications, appearance and privacy; any other section renders nothing |
| Settings.UnimplementedSections | frontend/src/pages/Settings.jsx:542-543 | "language" and "security" render no panel while the other four entries render one |
| Settings.ControlsBindDistinctCells | frontend/src/pages/Settings.jsx:405-533 | no two rendered controls are bound to the same cell |
| Settings.InitialWellTyped | frontend/src/pages/Settings.jsx:329-355 | in the initial settings every control's cell exists and holds a string for a select box and a boolean for a toggle |
| Settings.ApplyPreservesWellTyped | frontend/src/pages/Settings.jsx:366-384 | using a rendered control never throws and keeps every control's cell of the kind it expects |
| Settings.SessionSucceeds | frontend/src/pages/Settings.jsx:366-384 | any sequence of rendered-control interactions succeeds and keeps every cell well-typed |
| Settings.ReachableTogglesRestore | frontend/src/pages/Settings.jsx:366-374 | in every settings state reachable from the initial one, pressing a rendered toggle twice restores that state |
| ChatLog.Edit | src/components/team/ChatModal.jsx:305 | typing replaces the draft and leaves the log alone |
| ChatLog.Send | src/components/team/ChatModal.jsx:235-248 | a draft that trims to nothing leaves messages and draft unchanged; otherwise exactly one message is appended after an unchanged prefix, with id length+1, the untrimmed draft, the clock and the sent flag, and the draft is cleared |
| ChatLog.BlankDraftIgnored | src/components/team/SimpleChat.jsx:164 | a draft of spaces, tabs and newlines is ignored |
| ChatLog.NumberedIdsUnique | src/components/team/ChatModal.jsx:240 | ids equal to position plus one are pairwise distinct |
| ChatLog.SendKeepsNumbered | src/components/team/ChatModal.jsx:239-246 | sending keeps every id equal to its position plus one |
| ChatLog.RunKeepsIdsUnique | src/components/team/ChatModal.jsx:235-248 | any sequence of edits and sends from a numbered log keeps ids unique and the earlier log as a prefix |
| ChatModal.Conversation | src/components/team/ChatModal.jsx:214-248 | every conversation in the popup starts with the three seeded messages and keeps ids unique |
| SimpleChat.Conversation | src/components/team/SimpleChat.jsx:157-175 | every conversation in the popup starts with the two seeded messages and keeps ids unique |
| ChatModal.PresenceOf | src/components/team/ChatModal.jsx:268-269 | the online flag holds exactly for "online" and the away flag exactly for "away" |
| ChatModal.StatusDot | src/components/team/ChatModal.jsx:66-70 | the dot is success exactly for "online", warning exactly for "away", gray otherwise |
| ChatModal.AvatarText | src/components/team/ChatModal.jsx:204-210 | the header avatar shows the upper-cased word-starting characters of the recipient, at most one per piece |
| SimpleChat.AvatarLetter | src/components/team/SimpleChat.jsx:194 | the avatar is empty for an empty recipient and otherwise the upper-cased first character |
| Text.Trim | src/components/team/ChatModal.jsx:237 | the trimmed draft neither starts nor ends with white space |
| Text.TrimEmptyIffBlank | src/components/team/ChatModal.jsx:237 | a draft trims to nothing exactly when it is all white space |
| Text.ToUpper | src/pages/Team.jsx:240 | upper-casing keeps the length and maps each character on its own |
| Text.Split | src/pages/Team.jsx:237 | splitting on a space gives at least one piece, no piece contains a space, and a name not starting with a space starts its first piece |
| Text.JoinSplit | src/pages/Team.jsx:237 | joining the pieces with a space gives back the name |
| Text.Heads | src/pages/Team.jsx:238-239 | one character per piece at most, and one for every piece exactly when no piece is empty |
| Text.HeadsAreFirsts | src/pages/Team.jsx:238-239 | the collected characters are exactly the first characters of the non-empty pieces, in order, one each |
| Text.HeadsSplitIsWordStarts | src/pages/Team.jsx:237-239 | the characters collected from the split name are exactly the characters that start a word, in order: a non-space at the start or after a space |
| Text.Initials | src/pages/Team.jsx:235-241 | at most one initial per space-separated piece, one for every piece exactly when no piece is empty, and each is the upper-cased character `Heads` collected at its position; `Text.HeadsAreFirsts` and `Text.InitialsAreUpperWordStarts` say which characters those are |
| Text.InitialsAreUpperWordStarts | src/pages/Team.jsx:235-241 | the initials are, in order, the upper-cased characters that start a word, never more than the pieces |
| Text.InitialsOfTwoWords | src/pages/Team.jsx:235-241 | a first and last name without spaces give their two upper-cased first letters |
| Text.InitialsCountMatchesPieces | src/pages/Team.jsx:236-239 | there is one initial per piece exactly when no piece is empty |
| Text.WellSpacedInitialPerPiece | src/pages/Team.jsx:236-239 | a name without leading, trailing or doubled spaces has one initial per piece |
| Text.FirstUpper | src/components/team/SimpleChat.jsx:194 | empty for the empty string, otherwise the upper-cased first character |
| Text.Decimal | frontend/src/pages/Notifications.jsx:240-242 | a count renders as a non-empty string of digits |
| Text.DecimalRoundTrip | frontend/src/pages/Notifications.jsx:240-242 | reading a rendered count back gives the count |
| Team.OpenMessage | src/pages/Team.jsx:400 | the message popup opens addressed to the member and nothing else changes |
| Team.OpenChat | src/pages/Team.jsx:403 | the chat popup opens addressed to the member and nothing else changes |
| Team.CloseMessage | src/pages/Team.jsx:416 | the message popup closes with no recipient and nothing else changes |
| Team.CloseChat | src/pages/Team.jsx:422 | the chat popup closes with no recipient and nothing else changes |
| Team.PopupRoundTrip | src/pages/Team.jsx:251-252 | closing twice equals closing once, and opening then closing a closed popup restores the page |
| Team.PresenceMatchesChat | src/pages/Team.jsx:136-143 | the presence dot is success for online, warning for away and gray otherwise, the same as the chat avatar's dot |
| Team.PresenceTone | src/pages/Team.jsx:136-143 | the presence dot is success exactly for "online", warning exactly for "away", and gray for "offline" and every other status |
| Team.ProjectNames | src/pages/Team.jsx:391-397 | a card lists its member's project names in order |
| Team.Cards | src/pages/Team.jsx:359 | one card per member, in member order |
| Team.GridIgnoresFilterAndSearch | src/pages/Team.jsx:249-250 | the grid is the same whatever filter or search text is set, and shows the four members in seed order |
| Team.GridInitials | src/pages/Team.jsx:367-368 | the grid's avatars read "SJ", "MC", "ER", "DK" |
| Team.InitialsSJ | src/pages/Team.jsx:235-241 | "Sarah Johnson" gives "SJ", shown on the first card |
| Team.InitialsMC | src/pages/Team.jsx:235-241 | "Michael Chen" gives "MC", shown on the second card |
| Team.InitialsER | src/pages/Team.jsx:235-241 | "Emily Rodriguez" gives "ER", shown on the third card |
| Team.InitialsDK | src/pages/Team.jsx:235-241 | "David Kim" gives "DK", shown on the fourth card |
| Inbox.BadgeTone | src/pages/Inbox.jsx:184-199 | the badge is gray exactly for categories other than work, personal and social |
| Inbox.BadgeTonesDistinct | src/pages/Inbox.jsx:184-199 | work, personal and social get three different colours |
| Inbox.RowOf | src/pages/Inbox.jsx:316-322 | the paperclip shows exactly for messages with an attachment, and the star is filled exactly for starred ones |
| Inbox.Rows | src/pages/Inbox.jsx:295 | one row per message, in message order |
| Inbox.ListIgnoresFilterAndSearch | src/pages/Inbox.jsx:216-217 | the list is the same whatever filter or search text is set: the three messages in seed order, only the first with a paperclip, only the second starred |
| Inbox.ListInitials | src/pages/Inbox.jsx:303 | the rows' avatars read "SS", "SW", "TN" |
| Inbox.InitialsSS | src/pages/Inbox.jsx:202-208 | "Shubham Shrestha" gives "SS", shown on the first row |
| Inbox.InitialsSW | src/pages/Inbox.jsx:202-208 | "Sarah Wilson" gives "SW", shown on the second row |
| Inbox.InitialsTN | src/pages/Inbox.jsx:202-208 | "Tech Newsletter" gives "TN", shown on the third row |
| Sidebar.Mount | frontend/src/components/common/Sidebar.jsx:197-198 | the sidebar starts expanded with the drawer closed, and is mobile exactly at widths up to 768 |
| Sidebar.ClickCollapse | frontend/src/components/common/Sidebar.jsx:251 | the collapse button negates the collapsed flag and changes nothing else |
| Sidebar.Resize | frontend/src/components/common/Sidebar.jsx:202-210 | the mobile flag follows the new width; the drawer stays open only if it was open and the new width is mobile |
| Sidebar.ClickLink | frontend/src/components/common/Sidebar.jsx:274 | a link, which on mobile can only be clicked while the drawer is open, closes the drawer on mobile and leaves it alone on desktop |
| Sidebar.ClickClose | frontend/src/components/common/Sidebar.jsx:258-263 | the close button, shown only while the drawer is open, closes it |
| Sidebar.ClickOverlay | frontend/src/components/common/Sidebar.jsx:309-316 | the sidebar overlay, clickable only on mobile with the drawer open, closes it |
| Sidebar.HeaderParts | frontend/src/components/common/Sidebar.jsx:240-263 | exactly one of the collapse and close buttons is shown, and the title is hidden exactly when the labels are collapsed |
| Sidebar.DesktopResizeCloses | frontend/src/components/common/Sidebar.jsx:203-209 | after a resize to a desktop width the drawer is closed and a link click keeps it closed |
| Sidebar.AtMostOneActiveLink | frontend/src/components/common/Sidebar.jsx:216-227 | at most one link is highlighted, and one is exactly when the pathname is one of the seven paths |
| Layout.ToggleNav | frontend/src/components/common/Layout.jsx:99-101 | the toggle negates the drawer flag |
| Layout.ClickOverlay | frontend/src/components/common/Layout.jsx:127-133 | a click on the overlay, which exists only while the drawer is open, closes the drawer and removes the overlay |
| Layout.ToggleNavTwice | frontend/src/components/common/Layout.jsx:97-101 | toggling twice restores the flag; the overlay is absent initially and present after one toggle |
| App.ToggleTheme | src/App.jsx:15-17 | "light" becomes "dark" and every other value becomes "light" |
| App.PaletteFor | src/App.jsx:20 | the light palette is supplied exactly when the theme is "light" |
| App.ToggleTwice | src/App.jsx:16 | toggling twice is the identity on "light" and "dark" and lands on one of them from anything else |
| App.ToggleSwitchesPalette | src/App.jsx:15-20 | every toggle switches the supplied palette |
| App.ThemeAlternates | src/App.jsx:13-17 | from the initial "dark", the theme after n presses is dark for even n and light for odd n |
| StatsCard.Arrow | src/components/dashboard/StatsCard.jsx:118-138 | the arrow is up exactly for a positive trend and down otherwise |
| StatsCard.Label | src/components/dashboard/StatsCard.jsx:138 | the label is "Increased" exactly for "up", "Decreased" exactly for "down", and "No change" for every other trend |
| StatsCard.TrendText | src/components/dashboard/StatsCard.jsx:138 | the line starts with the up arrow exactly for "up" and with the down arrow otherwise, then a space, then the label |
| StatsCard.TopBar | src/components/dashboard/StatsCard.jsx:22-25 | the bar is the success gradient exactly for "up", the danger gradient exactly for "down", and the primary gradient otherwise |
| StatsCard.TrendCases | src/components/dashboard/StatsCard.jsx:138 | the trend line reads "↑ Increased" exactly for "up", "↓ Decreased" exactly for "down", "↓ No change" for anything else; the top bar is primary exactly for the latter |
| StatsCard.DashboardShowsNoChange | src/pages/Dashboard.jsx:75-80 | the four dashboard cards all read "↓ No change" under a primary bar |
| ActivityTimeline.IconFor | frontend/src/components/dashboard/ActivityTimeline.jsx:110-125 | there is no icon exactly for types outside the five known ones |
| ActivityTimeline.ColorFor | frontend/src/components/dashboard/ActivityTimeline.jsx:127-142 | completed is success, comment info, updated warning, assigned secondary; created and every unknown type are primary |
| ActivityTimeline.ColorsOfTypes | frontend/src/components/dashboard/ActivityTimeline.jsx:127-142 | the five known types get five different colours; an unknown type gets the primary colour of "created", and only those are primary |
| ActivityTimeline.EntryColours | frontend/src/components/dashboard/ActivityTimeline.jsx:192-201 | an entry's dot and header icon share a colour, and an entry without icon has the primary dot |
| Forms.Change | src/components/tasks/NewTaskModal.jsx:279-285 | the named field takes the typed value, a field the record lacked is added, and every other field is unchanged |
| Forms.LastWriteWins | src/components/tasks/NewTaskModal.jsx:279-285 | typing into a field twice keeps only the second value |
| Forms.WriteBackUnchanged | src/components/tasks/NewTaskModal.jsx:279-285 | re-entering a field's current value leaves the record unchanged |
| Forms.ChangesCommute | src/components/tasks/NewTaskModal.jsx:279-285 | edits to two different fields give the same record in either order |
| Forms.ReplaySnoc | src/components/tasks/NewTaskModal.jsx:279-285 | replaying a session with one more edit applies that edit to the replayed record |
| Forms.ReplayIsLastWrite | src/components/tasks/NewTaskModal.jsx:279-285 | after a session through rendered inputs the record has the same fields, each holds its last written value, and fields without an input are untouched |
| Forms.Close | src/components/tasks/NewTaskModal.jsx:300-310 | closing hides the dialog and keeps its data |
| Forms.Reopen | src/components/tasks/NewTaskModal.jsx:266 | reopening shows the dialog with the data it had |
| Forms.Submit | src/components/tasks/NewTaskModal.jsx:287-291 | submitting hands on the current record unchecked and closes the dialog without resetting it |
| Forms.SubmitKeepsData | src/components/tasks/NewTaskModal.jsx:287-291 | reopening after a submit shows what was sent, and submitting again sends the same |
| NewTaskModal.Defaults | src/components/tasks/NewTaskModal.jsx:267-277 | priority and category default to offered options, every field without an input starts as an empty list, and every input has a field |
| NewTaskModal.ListsStayEmpty | src/components/tasks/NewTaskModal.jsx:389-419 | whatever is typed, tags, assignees and attachments stay empty lists |
| NewTaskModal.SessionSubmits | src/components/tasks/NewTaskModal.jsx:287-291 | after any session the submitted task holds each field's last write and empty tags, and the dialog is closed |
| NewEventModal.Defaults | src/components/calendar/NewEventModal.jsx:247-257 | every field has an input and starts empty except the category, which is "meeting", the first option |
| NewEventModal.EndBeforeStartAccepted | src/components/calendar/NewEventModal.jsx:267-271 | an event ending before it starts is handed on as typed and the dialog closes |
| NewEventModal.SessionKeepsShape | src/components/calendar/NewEventModal.jsx:259-265 | after any session the event has the same fields, all strings |
| NewEventModal.LastWriteIsString | src/components/calendar/NewEventModal.jsx:259-265 | a field's last write is a string whenever its default is |
| MessageModal.Send | src/components/team/MessageModal.jsx:199-204 | sending closes the dialog and keeps the message data, which reopening shows again |
| MessageModal.SessionKeepsAttachmentNull | src/components/team/MessageModal.jsx:185-197 | after any session the attachment is still null, the subject holds its last write, and sending keeps the attachment null |
| ProfileSettings.TabInputs | src/components/common/ProfileSettings.jsx:281-352 | the profile and security tabs render inputs bound to existing fields, and no other tab renders any |
| ProfileSettings.ContentOf | src/components/common/ProfileSettings.jsx:267-404 | an unknown tab renders nothing, and a form is rendered exactly on tabs with inputs |
| ProfileSettings.Initial | src/components/common/ProfileSettings.jsx:241-250 | the dialog starts on the profile tab with the light theme card and the initial form, password fields empty |
| ProfileSettings.SelectTab | src/components/common/ProfileSettings.jsx:430-446 | a tab button sets one of the three tabs and changes nothing else |
| ProfileSettings.PickTheme | src/components/common/ProfileSettings.jsx:373-388 | a theme card selects its theme and changes nothing else |
| ProfileSettings.Type | src/components/common/ProfileSettings.jsx:252-258 | typing into a visible input changes only that field |
| ProfileSettings.PressPrimary | src/components/common/ProfileSettings.jsx:260-265 | the primary button closes the dialog on the two form tabs and does nothing on the appearance tab, leaving data, theme and tab as they are |
| ProfileSettings.ThemeCardsOnAppearanceTab | src/components/common/ProfileSettings.jsx:367-389 | a theme card can be clicked exactly when the appearance tab is shown, and after switching to that tab a click picks the theme |
| ProfileSettings.RunKeepsInvariant | src/components/common/ProfileSettings.jsx:241-446 | any session from a valid state keeps one of the three tabs, which always renders content, exactly one highlighted theme card, and the six form fields |
| ProfileSettings.MismatchedPasswordsAccepted | src/components/common/ProfileSettings.jsx:260-265 | a security submission with different new and confirmed passwords still closes the dialog |

## Left out

- Styling, animation and icons are left out: styled-components templates, framer-motion props, icon components and the theme token files. Icons appear only as enumerations and colours only as the theme's colour keys. The keys are names, not colours: `src/styles/themes.js` defines no `gray`, `gradientSuccess`, `gradientDanger` or `gradientPrimary`, so under the `src/` theme provider the gray dots and badges and the stats-card top bars get no colour at all.
- The wall clock and locale formatting are parameters. `Date.now()`, `new Date()` and `toLocaleTimeString` become `mountedAt`, `now` and `clock`; message times are opaque strings; the date-fns timestamps of activities are not modelled.
- The random avatar colour of Team and Inbox (`getRandomColor`, `Math.random`) is left out because it is nondeterministic.
- The window resize listener and the router are inputs: the width and the pathname.
- The browser's `required`-field check is left out. It runs before the handlers and is not part of their logic. `Forms.Submit` therefore models `handleSubmit` itself, which checks nothing.
- `e.preventDefault`, `stopPropagation` and `console.log` have no effect on the state and are left out.
- React's batching and stale closures are left out. For example, `toggleMobileNav` negates a captured value. Each handler is one atomic transition from the current state.
- Full Unicode is left out. `toUpperCase` is modelled on ASCII letters only; other characters are kept as they are. `trim()` uses the ECMAScript white-space and line-terminator set.
- `Text.Trim` states only that the result has no white space at either end. That it is exactly the input with the outer white space removed follows from its two halves, `TrimStart` and `TrimEnd`, whose contracts say so.
- The purely static components are left out: Navbar, TaskProgress, RecentTasks, the dashboard ActivityTimeline under `src/`, the stub pages, and Dashboard beyond its four trend values.
- Search is left out. The search boxes of Team and Inbox only store their text, which is modelled; nothing applies it. The same holds for the filter buttons of those two pages.
- The code has no grouping by date, no sorting, no mark-as-read (`handleMarkAsRead` is commented out) and no duplicate-id policy. None of these is modelled.
- The decorative parts of the dialogs are left out: the avatar upload, the tag chips, the assignee list and the attachment drop area. These have no handlers. The model only shows that the fields they stand for keep their defaults.
- Forms.Reopen: assumes the dialog stays mounted between openings, so reopening shows the kept record. Team keeps MessageModal mounted. No caller of NewTaskModal, NewEventModal or ProfileSettings is part of this model, and a parent that unmounts one of them on close would reset its record to the initial one.
- Forms.SubmitKeepsData: rests on the same mounting assumption as `Forms.Reopen`.
- ChatModal.Conversation: `src/components/team/ChatModal.jsx` does not parse as written, because the third seeded message (line 229) puts an unescaped `'` inside a single-quoted string. The model uses the evidently intended text, "Sure, I'd be happy to help. …". No page mounts the component: Team opens SimpleChat instead.
- Text.Heads: its own contract gives the number of characters only. Which characters they are is stated by `Text.HeadsAreFirsts` for any piece list, and for split names by `Text.HeadsSplitIsWordStarts`.
