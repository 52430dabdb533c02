# ChatExample view model in Dafny

This project models `ChatDemoViewModel`, the controller behind the ChatExample
demo app's screen. It drives one embedded `AssembledChat` widget:

- it initializes the widget, then opens, closes, shows or hides it, and resets it;
- it keeps an `isInitialized`/`isInitializing` pair, a status line and an error alert;
- it mirrors each step, and each widget delegate callback, into a bounded
  newest-first event log of `EventLogEntry` values.

The project has three modules:

- `EventLog` (event_log.dfy) holds the entry datatypes and the functions that
  specify the log. `Pushed` is one `addLog`, keep the 50 newest. `PushedAll` is a
  run of `addLog` calls. The lemmas say which entries survive and in what order.
- `ChatDemo` (chat_demo.dfy) holds the view model as a class. Its fields are the
  Swift class's fields. Every operation is a method that changes them in place
  and is proved against the log functions. `Valid()` is the invariant the methods
  keep: the log holds at most 50 entries, and the status line agrees with the
  flags. `ChatHandle` stands in for an `AssembledChat` instance. It records the
  configuration it was built from and the commands it received.
- `ChatDemoScenarios` (scenarios.dfy) holds host runs of the class. Each one
  states what a host observes after a fixed sequence of calls.

The asynchronous `initializeChat` is split in three, and the host calls the
last two later:

- `InitializeChat` is the synchronous part.
- `SucceedInitialization` is the success branch of the `Task`.
- `FailInitialization` is its catch branch.

Like the Swift code, neither completion checks that the handle it belongs to
is still installed.

## Model

| member | source | states |
|---|---|---|
| EventLog.Pushed | ChatExample/ContentView.swift:356-369 | one `addLog` leaves the log one longer when it held fewer than 50 entries, and at 50 otherwise |
| EventLog.PushedShifts | ChatExample/ContentView.swift:363-368 | after `addLog` the new entry is at index 0; every kept old entry has moved back one place; on a full log what remains of the old log is its first 49 entries, so the oldest are dropped |
| EventLog.PushedIsTakeOfCons | ChatExample/ContentView.swift:363-368 | one `addLog` is "insert at index 0, then keep the prefix of 50" |
| EventLog.PushedAll | ChatExample/ContentView.swift:356-369 | after any run of `addLog` calls on a log of at most 50 entries, the length is the old length plus the number added, capped at 50 |
| EventLog.PushedAllStep | ChatExample/ContentView.swift:356-369 | logging one more entry of a run is one more `addLog` on the log so far |
| EventLog.PushedAllKeepsNewest | ChatExample/ContentView.swift:363-368 | after any run of `addLog` calls the log is exactly the 50 most recent entries, newest first: the added entries in reverse, then the old log |
| EventLog.NewestFirst | ChatExample/ContentView.swift:363-368 | entry k of the log is the k-th most recent addition; after the additions come the old entries in their old order |
| ChatDemo.ConfigurationFor | ChatExample/ContentView.swift:288-292 | the configuration carries the company id and debug flag; its profile id is absent exactly when the profile field is empty |
| ChatDemo.FormEntries | ChatExample/ContentView.swift:280-285 | the form is logged as 3 entries, or 4 when a profile id is given |
| ChatDemo.InitializationEntries | ChatExample/ContentView.swift:280-298 | `initializeChat` logs 5 entries, or 4 when the profile id is empty |
| ChatDemo.InitializationEntriesInOrder | ChatExample/ContentView.swift:280-298 | those entries are, in order: the start, the company id, the profile id (present exactly when non-empty), the debug flag, and the handle's creation |
| ChatDemo.FormLog | ChatExample/ContentView.swift:280-285 | logging the form entries as a run is the three or four `addLog` calls of the source, in order |
| ChatDemo.InitializationLog | ChatExample/ContentView.swift:280-298 | logging all the initialization entries as one run is logging the form entries, then one `addLog` of the creation entry |
| ChatDemo.ChatDemoViewModel.constructor | ChatExample/ContentView.swift:252-263 | a new view model has empty form fields, debug on, both flags down, "Not initialized", no alert, an empty log and no handle |
| ChatDemo.ChatDemoViewModel.StatusColor | ChatExample/ContentView.swift:265-273 | the status dot is green iff initialized, orange iff initializing but not initialized, red iff neither |
| ChatDemo.StatusTextsDistinct | ChatExample/ContentView.swift:258-314 | the four status lines ("Not initialized", "Initializing...", "Ready", "Initialization failed") are pairwise different, so the words identify the state |
| ChatDemo.StatusColorMatchesText | ChatExample/ContentView.swift:265-273 | in a valid state the dot agrees with the status line: green when "Ready", red when "Not initialized", never red while "Initializing...", orange only while "Initializing..." |
| ChatDemo.ChatDemoViewModel.AddLog | ChatExample/ContentView.swift:356-369 | the new log is `Pushed` of the old one; nothing else changes |
| ChatDemo.ChatDemoViewModel.ClearLog | ChatExample/ContentView.swift:352-354 | the log is empty; nothing else changes |
| ChatDemo.ChatDemoViewModel.ShowErrorAlert | ChatExample/ContentView.swift:371-374 | the alert is raised with the given message; nothing else changes |
| ChatDemo.ChatDemoViewModel.InitializeChat | ChatExample/ContentView.swift:275-298 | with an empty company id nothing changes. Otherwise: "Initializing..." with `isInitializing` set; `isInitialized` and the alert untouched; a fresh handle with no commands, built from the form, replaces the old one; the old handle gets no teardown; the log is the old log plus the run of all the initialization entries; the log stays within 50 |
| ChatDemo.ChatDemoViewModel.LogAndInstall | ChatExample/ContentView.swift:280-298 | the log becomes the old log plus the run of all initialization entries, in order, and a fresh handle built from the form replaces the old one; only the handle and the log change |
| ChatDemo.ChatDemoViewModel.LogForm | ChatExample/ContentView.swift:280-285 | the form entries are logged in order; only the log changes |
| ChatDemo.ChatDemoViewModel.InstallHandle | ChatExample/ContentView.swift:287-298 | a fresh handle built from the form is installed, then its creation is logged; only the handle and the log change |
| ChatDemo.ChatDemoViewModel.SucceedInitialization | ChatExample/ContentView.swift:304-310 | initialized, no longer initializing, "Ready", two entries logged (success, then the hint); the handle and the alert are unchanged |
| ChatDemo.ChatDemoViewModel.FailInitialization | ChatExample/ContentView.swift:311-317 | no longer initializing, "Initialization failed", one entry logged, the alert raised with the description; `isInitialized` and the handle are unchanged |
| ChatDemo.ChatDemoViewModel.OpenChat | ChatExample/ContentView.swift:322-325 | exactly one entry is logged, handle or not; `Open` reaches the handle only when one exists; the flags, status and alert are unchanged |
| ChatDemo.ChatDemoViewModel.CloseChat | ChatExample/ContentView.swift:327-330 | as `OpenChat`, with `Close` |
| ChatDemo.ChatDemoViewModel.ShowLauncher | ChatExample/ContentView.swift:332-335 | as `OpenChat`, with `ShowLauncher` |
| ChatDemo.ChatDemoViewModel.HideLauncher | ChatExample/ContentView.swift:337-340 | as `OpenChat`, with `HideLauncher` |
| ChatDemo.ChatDemoViewModel.Reset | ChatExample/ContentView.swift:342-350 | from any valid state: a teardown is sent to the handle if there is one, and the handle is dropped; both flags go down; "Not initialized"; the log is empty, the "Resetting" entry included; the alert is unchanged |
| ChatDemo.ChatDemoViewModel.ChatDidLoad | ChatExample/ContentView.swift:384-386 | exactly one entry is logged (green, inbox icon); no other state changes |
| ChatDemo.ChatDemoViewModel.ChatDidOpen | ChatExample/ContentView.swift:388-390 | exactly one entry is logged (green); no other state changes |
| ChatDemo.ChatDemoViewModel.ChatDidClose | ChatExample/ContentView.swift:392-394 | exactly one entry is logged (orange); no other state changes |
| ChatDemo.ChatDemoViewModel.ChatDidReceiveError | ChatExample/ContentView.swift:396-398 | exactly one entry carrying the description is logged (red); the alert is not raised and the flags do not move |
| ChatDemo.ChatDemoViewModel.ChatDidReceiveNotification | ChatExample/ContentView.swift:400-402 | exactly one entry carrying the notification id is logged (purple, bell icon); no other state changes |
| ChatDemoScenarios.OpenThenReset | ChatExample/ContentView.swift:275-350 | company "acme", success, open, reset: the handle receives exactly `[Open, Teardown]`; the open is the newest entry; the view model ends "Not initialized" with an empty log |
| ChatDemoScenarios.EmptyCompanyId | ChatExample/ContentView.swift:275-276 | an empty company id leaves a new view model not initializing, "Not initialized", with an empty log and no handle |
| ChatDemoScenarios.CommandsWithoutHandle | ChatExample/ContentView.swift:322-340 | the four commands before any initialization log four entries, and there is still no handle |
| ChatDemoScenarios.LateSuccessAfterReset | ChatExample/ContentView.swift:301-310 | a success completion after a reset still applies: "Ready" and initialized, with no handle |
| ChatDemoScenarios.FailureKeepsHandle | ChatExample/ContentView.swift:311-317 | after a failure: not initialized, "Initialization failed", the alert shows the description, and the same handle is still installed |
| ChatDemoScenarios.ReinitializeWhileReady | ChatExample/ContentView.swift:275-298 | initializing again when ready installs a new handle; the first one receives no commands; the dot stays green while the line reads "Initializing..." |

## Behaviour of the code worth knowing

- A failed initialization keeps the handle. `FailInitialization` leaves `chat`
  as it was; it is not discarded.
- Nothing guards against a completion that arrives late. There is no
  generation check, so a completion after `reset` still sets the flags and the
  status (`LateSuccessAfterReset`).
- Open, close, show and hide are logged even when no handle exists. Only the
  command to the handle is skipped (`CommandsWithoutHandle`).
- `reset` also clears the event log.
- A second `initializeChat` is not rejected. It replaces the handle without a
  teardown (`ReinitializeWhileReady`).
- `isInitialized` is not lowered by a failure or by a new initialization. Only
  `reset` lowers it.

## Left out

- The SwiftUI `ContentView.body` (ContentView.swift:7-246): layout, buttons,
  colours and the alert binding. It is presentation only.
- Clipboard pastes and the test-id button (ContentView.swift:29-32, 48-51,
  64-67). These are platform input and UI conveniences. A host sets
  `companyId` and `profileId` directly.
- `timeString` and `Date()` (ContentView.swift:376-380) are a wall-clock read.
  Every logging operation instead takes the timestamp as a `now` parameter. All
  entries of one call share it, so entries of one call that straddle a second
  boundary are not modelled.
- The random `UUID` id of `EventLogEntry` (ContentView.swift:408). It is not
  observable behaviour.
- The `AssembledChat` library is not part of this model. `ChatHandle` only
  records its configuration and the commands it receives.
- ChatDemo.ChatDemoViewModel.InitializeChat: does not record the
  `chat?.delegate = self` registration at ContentView.swift:296. It also does
  not record the `initialize()` request the `Task` sends at :303. Delegate
  callbacks are methods the runtime may call at any time.
- The `Task` and `MainActor.run` scheduling (ContentView.swift:301-319). The
  two completions are ordinary methods the host calls afterwards, in any state.
  There is nothing to verify about threading.
- `@Published` change notification and `ObservableObject` conformance. They
  only drive the view.
- Colours, icons, message wording and the status line's words are small
  datatypes. Log messages carry only the values interpolated into them.
  `StatusText.Text` gives the status line's words.
