# Minecraft host mock-up: server list, power button, plugins and console

This project models the state logic of two pages of a client-side mock-up of a
Minecraft server hosting product. There is no backend: every action rewrites
in-memory page state. The model keeps that state and the handlers that change it,
written as pure transition functions over immutable datatypes.

- `IndexPage` (`src/pages/Index.tsx`) is the landing page's server list. Creating
  a server is rejected when the typed name is blank. Otherwise one `starting`
  record is appended, the name field is cleared, and a 3-second promotion timer
  is scheduled. The timer is the explicit event `PromotionDue(id)`. It marks
  every record with that id `online`, and it may fire after the record was
  deleted. Deleting removes every record with an id. `Step`/`Inv` put the
  events together and prove what every reachable page satisfies.
- `Power` (`src/pages/ServerControl.tsx`) is the power button. `online` goes to
  `offline`. Every other status goes to `starting` and schedules a 2-second
  timer that forces `online`. The button is disabled while `starting`.
- `Plugins` is the plugin list's on/off buttons. The flag is flipped on every
  plugin with the clicked name.
- `Console` is the simulated console. A blank input is ignored. Otherwise the
  log gets `> <input>` and one `[Server] ...` reply, and the input is cleared.
- `Text` holds JavaScript's `trim` and `startsWith` and the decimal rendering of
  a non-negative number (`toString`). `Wrappers` holds an `Option` type.
  `Lifecycle` holds the three-valued status.

Timers are events, not time. Ids come from `Date.now()`, so they are the decimal
rendering of a `now: nat` parameter of `CreateServer`. Strings are sequences of
code points. Every white-space character `trim` removes is in the Basic
Multilingual Plane, and `say ` is ASCII. So trimming, and taking
`substring(4)` after the `say ` prefix, act on code points exactly as they act
on UTF-16 units.

Details of the code the model keeps:
- the `list` reply shows the length of the page's (static) online-player list over the
  server's `maxPlayers`, not the server's `players` field, and every reply carries
  the `[Server] ` prefix;
- the console echoes `> ` followed by the input, not the bare input;
- toggling power from `starting` also goes to `starting` and schedules another timer.
  Only the disabled button stops this. `Power.UngatedClicksLetAStaleTimerUndoAStop`
  shows what happens without it;
- a created server keeps its name exactly as typed, surrounding spaces included.
  Only the blank check trims.

## Model

| member | source | states |
|---|---|---|
| `Text.TrimStartSpec` | src/pages/Index.tsx:38 | removing leading white space keeps a suffix that does not start with white space, and everything dropped is white space |
| `Text.TrimEndSpec` | src/pages/Index.tsx:38 | removing trailing white space keeps a prefix that does not end with white space, and everything dropped is white space |
| `Text.Trim` | src/pages/Index.tsx:38 | the trimmed name is no longer than the name and neither starts nor ends with white space |
| `Text.TrimIsInnerSlice` | src/pages/Index.tsx:38 | `trim` keeps one contiguous slice of the input and removes only white space on either side of it |
| `Text.BlankIffAllWhitespace` | src/pages/Index.tsx:38 | trimming a name leaves nothing exactly when the name is made only of white space, the empty name included |
| `Text.IsBlank` | src/pages/Index.tsx:38 | the guard `!name.trim()` (also the console's `!command.trim()`) holds exactly for strings made only of white space |
| `Text.StartsWith` | src/pages/ServerControl.tsx:99 | `s.startsWith(p)` holds exactly when `p` is no longer than `s` and `s` begins, character by character, with `p` |
| `Text.NatToString` | src/pages/Index.tsx:44 | an id rendered from a timestamp is a non-empty string of decimal digits with no leading zero |
| `Text.NatToStringRoundTrip` | src/pages/Index.tsx:44 | reading the decimal id back gives the timestamp it was made from |
| `Text.NatToStringInjective` | src/pages/Index.tsx:44 | two timestamps give the same id string exactly when they are equal |
| `IndexPage.IdAt` | src/pages/Index.tsx:44 | a create's id is a string of decimal digits whose value is the millisecond of the create |
| `IndexPage.CreateServer` | src/pages/Index.tsx:37-61 | a blank name leaves the whole page unchanged, the typed name included; otherwise the list grows by exactly one record at the end, the old records keep their order, and the new record has the timestamp id, the name as typed, the selected version, status starting, 0 of 20 players and the free plan; the name field is cleared and one promotion timer for the new id is pending |
| `IndexPage.PromoteOnline` | src/pages/Index.tsx:57-61 | the timer callback keeps the list length, sets online on every record with the id and changes nothing else on any record |
| `IndexPage.PromoteAbsentIsIdentity` | src/pages/Index.tsx:58-60 | a promotion for an id no record carries (for example after the delete) leaves the list unchanged |
| `IndexPage.PromoteIdempotent` | src/pages/Index.tsx:58-60 | firing the same promotion twice gives the same list as firing it once |
| `IndexPage.DeleteServer` | src/pages/Index.tsx:64-66 | no record left after a delete carries the id, and the list shrinks by exactly the number of records that did |
| `IndexPage.DeleteServerMembership` | src/pages/Index.tsx:65 | a record is in the list after a delete exactly when it was there before and carries another id |
| `IndexPage.DeleteServerDistributes` | src/pages/Index.tsx:65 | delete works record by record, so it keeps the survivors in their original order (it distributes over concatenation) |
| `IndexPage.DeleteServerUnchangedIffAbsent` | src/pages/Index.tsx:65 | a delete leaves the list unchanged exactly when no record carries the id |
| `IndexPage.DeleteAbsentIsIdentity` | src/pages/Index.tsx:65 | deleting an absent id returns the same list |
| `IndexPage.CountIdZeroIffAbsent` | src/pages/Index.tsx:65 | the count of records with an id is zero exactly when no index holds such a record |
| `IndexPage.PromoteDeleteCommute` | src/pages/Index.tsx:57-65 | a delete and a promotion timer give the same list in either order, whatever their ids |
| `IndexPage.PromoteAfterDeleteIsNoOp` | src/pages/Index.tsx:57-65 | once a server is deleted, its pending promotion no longer changes the list |
| `IndexPage.DeleteUndoesCreate` | src/pages/Index.tsx:43-65 | deleting the id of a create whose timestamp no record carries gives back the list as it was before the create |
| `IndexPage.IdsDistinctIffTimesDistinct` | src/pages/Index.tsx:44 | creates in different milliseconds give different ids, and creates in the same millisecond give the same id |
| `IndexPage.SameMillisecondCreatesShareOneDelete` | src/pages/Index.tsx:43-65 | two creates in the same millisecond append two records with one id, and a single delete of that id removes both |
| `Lifecycle.StatusOfLabel` | src/pages/Index.tsx:77-83 | reading a badge text back gives a status with that badge, or reports that none of the three statuses has it |
| `IndexPage.StatusText` | src/pages/Index.tsx:77-83 | `getStatusText` gives Работает for online, Остановлен for offline and Запускается for starting, and each of these texts belongs to that status only |
| `IndexPage.StatusTextRoundTrip` | src/pages/Index.tsx:77-83 | the landing-page badge function is total over the three statuses, its three labels are distinct, and reading one back gives its status |
| `IndexPage.Step` | src/pages/Index.tsx:37-66 | one page event: only a create adds a record, only a create or a firing timer changes the pending timers, and the selected version stays one the selector offers |
| `IndexPage.InitialPageInv` | src/pages/Index.tsx:22-35 | the opening page (one online server, empty name, preselected 1.20.4) satisfies the page invariant |
| `IndexPage.StepPreservesInv` | src/pages/Index.tsx:37-65 | typing, version choice, create, delete and a firing timer keep the page invariant: versions come from the selector, no record is offline, and every starting record has a pending promotion |
| `IndexPage.QuiescentPageIsOnline` | src/pages/Index.tsx:57-61 | on a reachable page with no timer pending, every server is online |
| `Power.InitialStatus` | src/pages/ServerControl.tsx:35 | the page opens with the status of the server it was given, or online when it was given none |
| `Power.InitialControl` | src/pages/ServerControl.tsx:35 | the page opens with its initial status and no start timer pending, which satisfies the one-timer invariant |
| `Power.ToggleEnabled` | src/pages/ServerControl.tsx:163 | the power button is clickable exactly when the status is online or offline, that is, not starting |
| `Power.Toggle` | src/pages/ServerControl.tsx:61-73 | a click on online goes to offline and schedules nothing; a click on any other status goes to starting and schedules one more start timer |
| `Power.StartFinished` | src/pages/ServerControl.tsx:68-71 | a firing start timer sets online whatever the status was, and consumes that timer |
| `Power.Step` | src/pages/ServerControl.tsx:61-73 | one event the page can receive: a delivered click always changes the status, and no event breaks the one-timer invariant |
| `Power.ClickableToggle` | src/pages/ServerControl.tsx:158-163 | a click the enabled button can deliver comes from online or offline and lands in offline or starting |
| `Power.StepPreservesInv` | src/pages/ServerControl.tsx:61-73 | with the button disabled while starting, at most one start timer is pending, and only while the status is starting |
| `Power.RunPreservesInv` | src/pages/ServerControl.tsx:158-163 | every state reachable by deliverable events keeps that invariant |
| `Power.TimerOnlyEndsAStart` | src/pages/ServerControl.tsx:158-163 | from the opening state, a start timer can fire only while the server is starting, so it never undoes a stop |
| `Power.UngatedClicksLetAStaleTimerUndoAStop` | src/pages/ServerControl.tsx:65-71 | without the disabled button, two clicks while starting leave a stale timer that turns a stopped server back online |
| `Power.OpenedStartingStaysStarting` | src/pages/ServerControl.tsx:35 | a page opened on a server that is already starting has no timer and a disabled button, so no event can occur |
| `Power.StatusText` | src/pages/ServerControl.tsx:123-129 | the control page's badge gives Онлайн for online, Оффлайн for offline and Запуск... for starting, and each of these texts belongs to that status only |
| `Power.StatusTextRoundTrip` | src/pages/ServerControl.tsx:123-129 | the control page's badge function is total, its three labels are distinct, and reading one back gives its status |
| `Plugins.InitialPluginsDistinct` | src/pages/ServerControl.tsx:44-48 | the page's opening plugin list has distinct names, so the enabled-count lemma applies to it |
| `Plugins.TogglePlugin` | src/pages/ServerControl.tsx:75-82 | the plugin list keeps its length and order; every plugin keeps its name, version and description; the flag is inverted exactly on plugins with the clicked name |
| `Plugins.ToggleUnchangedIffAbsent` | src/pages/ServerControl.tsx:77-81 | a toggle leaves the list unchanged exactly when no plugin has that name |
| `Plugins.ToggleTwiceIsIdentity` | src/pages/ServerControl.tsx:77-81 | toggling the same name twice restores the list |
| `Plugins.TogglesCommute` | src/pages/ServerControl.tsx:75-82 | toggles of two names give the same list in either order |
| `Plugins.ToggleChangesEnabledCountByOne` | src/pages/ServerControl.tsx:75-82 | when plugin names are distinct, a toggle changes the number of enabled plugins by exactly one, down if that plugin was on and up if it was off |
| `Console.ServerLine` | src/pages/ServerControl.tsx:37-42 | every line the simulated server writes starts with `[Server] ` |
| `Console.Reply` | src/pages/ServerControl.tsx:95-104 | the reply is chosen on the untrimmed input: exact help gives the command list, then exact list gives online/max players, then a `say ` prefix gives a broadcast of everything after the first four characters, and anything else gives the generic reply; every reply is a server line |
| `Console.ExecuteCommand` | src/pages/ServerControl.tsx:89-108 | a blank input changes neither the log nor the input; otherwise the old log is kept as a prefix, exactly two lines follow (the echo, then the reply), and the input is cleared |
| `Console.Echo` | src/pages/ServerControl.tsx:93 | the echo line is `> ` followed by the command exactly as typed |
| `Console.ListReply` | src/pages/ServerControl.tsx:98 | the list reply is a server line starting `[Server] Online players: ` |
| `Console.ListReplyShowsCounts` | src/pages/ServerControl.tsx:98 | after `[Server] Online players: ` the list reply shows the online count in decimal, then the first `/`, then the maximum in decimal, each reading back to its number |
| `Console.EchoedCommand` | src/pages/ServerControl.tsx:93 | a line read as an echo gives back a command whose echo is that line |
| `Console.EchoRoundTrip` | src/pages/ServerControl.tsx:93 | the echo line gives back exactly the command as typed |
| `Console.ServerLineIsNoEcho` | src/pages/ServerControl.tsx:95-104 | no server line can be read as an echo |
| `Console.ExecuteRecordsCommand` | src/pages/ServerControl.tsx:89-107 | one submission adds its command to the log's recorded history, or nothing when it is blank |
| `Console.ServerLinesRecordNoCommands` | src/pages/ServerControl.tsx:37-42 | a log of server lines only records no command |
| `Console.InitialLogHasNoCommands` | src/pages/ServerControl.tsx:37-42 | the opening log records no command |
| `Console.SessionHistory` | src/pages/ServerControl.tsx:89-108 | after any sequence of submissions, the log's echoes are exactly the non-blank inputs in submission order, and each of them added two lines |
| `Console.BroadcastMessage` | src/pages/ServerControl.tsx:100-101 | a line read as a broadcast gives back a message whose broadcast line is that line |
| `Console.SayBroadcastsText` | src/pages/ServerControl.tsx:99-101 | `say <text>` broadcasts exactly `<text>`, spaces included |
| `Console.ListReplyDeterminesCounts` | src/pages/ServerControl.tsx:98 | the list reply determines both the online count and the maximum it shows |
| `Console.UntrimmedHelpIsGeneric` | src/pages/ServerControl.tsx:95-104 | every input that trims to `help` but is not exactly `help` is not recognised and gets the generic reply |

## Left out

- Rendering, styling, tabs, cards, icons and the status colours (`getStatusColor`) are presentation only.
- `toast` notifications are not modelled. They are side-effect messages and hold no state. The plugin toast also reads the list as it was before the toggle.
- Real delays (3000 ms, 2000 ms) and `setTimeout` scheduling are not modelled. Timers are explicit events that may fire at any later point.
- `Date.now()` is not modelled. The timestamp is the `now` parameter of `CreateServer`.
- Stale closures are not modelled. `createServer` and `deleteServer` build on the list captured at the last render; `toggleServer` reads the rendered `serverStatus`, and the button's `disabled` flag is the rendered one; `executeCommand` appends to the rendered `consoleLog`. The model assumes a render between any two events, so each event sees the current list, status, button state and log. `Power.Inv`'s one-timer guarantee rests on this assumption too.
- The clipboard copy, the plugin-build file upload and router navigation (including the redirect when no server was passed) are browser I/O.
- The player, VIP-settings and quick-action buttons are left out. They only show toasts and change no state.
- The payment page (`src/pages/Payment.tsx`) is not part of this model. It drives a third-party payment widget whose behaviour is not visible, and its tariff list is static display data.
- Text.NatToString: models `toString` only for whole non-negative numbers. It does not model the exponent notation JavaScript uses from 10^21 upward, or fractional counts. No id or player count reaches either.
