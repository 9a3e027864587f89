# signalguard connectivity debouncer, in Dafny

signalguard is a small React Native app that shows whether the device has
internet access and whether it is on cellular data, with a history of
connect/disconnect events for each. Its only logic is in the `App` component
(App.js): a NetInfo listener drives two debounced trackers, "internet" and
"phone". Each tracker has a committed flag, a disconnect-timer handle and a
newest-first history. Both trackers share one list of highlight marks.

- A connected input cancels the pending disconnect timer and commits at once.
- A disconnected input arms a 5000 ms timer. When the timer fires, it commits
  the disconnection.
- Every committed change is prepended to the history and gets a highlight
  mark. The mark is removed 10000 ms later by a timestamp match.

This project models that state machine and proves what it guarantees.

- `highlights.dfy` (module `Highlights`): history entries and highlight
  marks. Also the expiry filter (`WithoutTimestamp`), the `some`/`find` lookup
  (`IsHighlighted`, `Find`, `RowColor`) and `RenderHistory`, all as pure
  functions.
- `debounce.dfy` (module `Debounce`): the state machine on values. Each
  tracker is a `Tracker(committed, handle, history)` and the component is a
  `State`. The listener, the timer callback and the expiry callback are
  transitions. `Run` folds a sequence of events. `TrackerInv` is the
  invariant every reachable state satisfies.
- `monitor.dfy` (module `App`): class `Monitor`. Its fields are the
  component's state variables (`isConnected`, `debounceTimeout`,
  `internetHistory`, `highlightedEntries` and the phone counterparts). Its
  methods update the fields in place, in the source's order. `OnEvent`,
  `DebounceInternet`, `DebouncePhone`, `FireDisconnectTimer` and
  `ExpireHighlight` are each proved equal to the matching `Debounce`
  transition and keep `Valid()`. `AddHistoryEntry` is a helper proved equal
  to `Debounce.AddHistoryEntry`; a bare prepend does not by itself keep the
  alternation in `Valid()`.

The two timers are events that the caller delivers:
`FireDisconnectTimer(w)` stands for the 5000 ms callback and
`ExpireHighlight(ts)` for the 10000 ms one. The durations are only named
constants (`DisconnectDelayMs`, `HighlightMs`).

A timer handle is `NoTimer` (null), `Pending(armedAt, sawConnected)` (a live
timer) or `Spent`. `Pending` records what the callback closed over: the
timestamp of the event that armed it and the committed flag at that moment.
`Spent` is the id of a timer that has already fired. The callback never sets
the handle back to null, so a spent handle is still truthy.

Two details of the code shape the model:

- The Disconnected entry carries the timestamp taken when the disconnected
  event arrived (App.js:22, 38, 60), not the time the timer fires.
- The timer callback never resets the handle to null (App.js:35-41), so it
  stays held until a connected event clears it (App.js:25-27, 34). The model
  calls this handle `Spent`.

Proved invariant (`Debounce.Reachable`), for each tracker of every state
reachable from the initial one:

- the handle is `Spent` exactly when the committed flag is false, so "no handle
  held" implies the flag is true;
- a pending timer closed over a true flag, so a firing always records
  `Disconnected` (`FiringRecordsDisconnect`);
- statuses in the history strictly alternate, and the oldest entry is a
  disconnection;
- the newest entry is `Connected` exactly when the flag is true, and the flag
  is true exactly when the history has even length (`CommittedParity`).

## Model

| member | source | states |
|---|---|---|
| `Highlights.WithoutTimestamp` | App.js:82-84 | after expiry, no mark has the timestamp; every mark with another timestamp stays; nothing new appears |
| `Highlights.WithoutConcat` | App.js:83 | expiry keeps the surviving marks in their original order (it filters each part of a concatenation) |
| `Highlights.WithoutCounts` | App.js:83 | expiry removes every copy of the marks with that timestamp and keeps the count of every other mark |
| `Highlights.WithoutAbsent` | App.js:83 | expiring a timestamp that no mark carries leaves the list unchanged |
| `Highlights.WithoutIdempotent` | App.js:82-84 | expiring the same timestamp twice is the same as expiring it once |
| `Highlights.WithoutKeepsColours` | App.js:81-83 | if every mark has its status's colour before expiry, that still holds after it |
| `Highlights.Find` | App.js:90 | `find` returns a mark exactly when `some` holds, and the mark it returns is the first one with that timestamp |
| `Highlights.RowColor` | App.js:89-90 | a row's colour is the colour of the first mark with the entry's timestamp, or '#333' when no mark has it |
| `Highlights.RenderHistory` | App.js:87-94 | rendering keeps the length and order of the history; row i shows entry i's timestamp and status in `RowColor` |
| `Highlights.RenderedColour` | App.js:89-90 | with marks coloured by status and no colliding mark of another status, a highlighted row is green/red by its status, otherwise '#333' |
| `Highlights.ExpiredRowsPlain` | App.js:82-90 | once a timestamp's highlight has expired, every row with that timestamp is drawn in '#333' |
| `Debounce.AddHistoryEntry` | App.js:79-81 | the entry is prepended to one history with older entries unchanged and in order; its mark is appended to the shared list; the other tracker and both flags and handles are untouched |
| `Debounce.Feed` | App.js:24-43 | one tracker's listener half never touches the other tracker, adds at most one entry and one mark, and keeps older entries and marks unchanged |
| `Debounce.OnEvent` | App.js:21-65 | the internet tracker sees `isConnected`; the phone tracker sees `isConnected && type === 'cellular'`; each tracker is affected only by its own input |
| `Debounce.FireDisconnectTimer` | App.js:35-40 | only a pending timer fires; the other tracker is untouched; afterwards the handle is still held (spent) |
| `Debounce.ExpireHighlight` | App.js:82-84 | expiry touches neither tracker and leaves no mark with that timestamp |
| `Debounce.InitialInv` | App.js:10-18 | the initial state (both flags true, no handles, empty lists) satisfies the invariant |
| `Debounce.FeedInv` | App.js:24-43 | each listener half keeps the tracker invariant and the status colouring of the marks |
| `Debounce.FireInv` | App.js:35-41 | the timer callback keeps the invariant |
| `Debounce.StepInv` | App.js:21-84 | every event (network change, disconnect timer, highlight expiry) keeps the invariant |
| `Debounce.RunInv` | App.js:21-84 | every sequence of events keeps the invariant |
| `Debounce.Reachable` | App.js:10-84 | every state reachable from the initial state satisfies the invariant: no handle implies connected, pending timer implies connected, alternating history, newest entry `Connected` iff connected |
| `Debounce.AlternatingParity` | App.js:29-38 | in a reachable history, an entry's status is fixed by its distance from the oldest entry, which is a disconnection |
| `Debounce.CommittedParity` | App.js:29-38 | a tracker's flag is true exactly when its history has an even number of entries |
| `Debounce.ConnectedInput` | App.js:24-32 | a connected input clears the handle and leaves the flag true; a false flag gains exactly one `Connected` entry and one green mark; a true flag records nothing |
| `Debounce.DisconnectedInput` | App.js:33-43 | a disconnected input arms a timer capturing the arrival timestamp only when no handle is held; with a handle held, a spent one included, the state is unchanged |
| `Debounce.DropAfterFiringIgnored` | App.js:34-41 | once a pending timer has fired, a further disconnected input leaves the state unchanged, because the spent handle is still held |
| `Debounce.ReconnectBothOrder` | App.js:31-53 | when one cellular event reconnects both trackers, the internet tracker's green mark is appended before the phone tracker's |
| `Debounce.FiringRecordsDisconnect` | App.js:35-41 | in a reachable state, firing a pending timer clears the flag, prepends one `Disconnected` entry stamped with the arming event's time, appends one red mark, and leaves the handle held |
| `Debounce.WifiIsPhoneDisconnect` | App.js:45-65 | a connected wifi event is a connection for the internet tracker and a disconnection for the phone tracker |
| `Debounce.FlapAbsorbed` | App.js:24-43 | a drop followed by a reconnection before the timer fires leaves a connected tracker and the marks exactly as they were |
| `Debounce.SustainedDrop` | App.js:22-41 | from the initial state, a drop whose timer fires records exactly one `Disconnected` entry stamped at the drop's arrival |
| `Debounce.ExpiryHitsBothTrackers` | App.js:82-84 | expiring a timestamp also clears the highlight of the other tracker's entry with the same timestamp |
| `App.Monitor.constructor` | App.js:10-18 | starts in the initial state, which satisfies the invariant |
| `App.Monitor.AddHistoryEntry` | App.js:79-85 | updates the fields exactly as `Debounce.AddHistoryEntry`: the entry is prepended to the chosen history and its mark appended to `highlightedEntries` |
| `App.Monitor.OnEvent` | App.js:21-65 | updates the fields exactly as `Debounce.OnEvent` and keeps the invariant; each flag becomes true if its input is true, and is otherwise unchanged |
| `App.Monitor.DebounceInternet` | App.js:24-43 | the internet half, in place: equals `Debounce.Feed` on the internet tracker; the phone flag is untouched |
| `App.Monitor.DebouncePhone` | App.js:45-65 | the phone half, in place: equals `Debounce.Feed` on the phone tracker; the internet flag is untouched |
| `App.Monitor.FireDisconnectTimer` | App.js:35-62 | the timer callback, in place: equals `Debounce.FireDisconnectTimer` and keeps the invariant |
| `App.Monitor.ExpireHighlight` | App.js:82-84 | the expiry callback, in place: equals `Debounce.ExpireHighlight` and keeps the invariant |
| `App.Monitor.Rendered` | App.js:87-95 | reads only; renders the chosen history into one row per entry |

## Left out

- Presentation: JSX, icons, styles, the expand/collapse toggles and the React
  `key` of each row (App.js:16-17, 97-204). They hold no state-machine logic.
  A row is modelled as its text parts and its colour.
- The NetInfo subscription and unsubscription (App.js:21, 75). Listener calls
  are `OnEvent(isConnected, type, ts)` calls. NetInfo's `isConnected` may be
  null, and the source treats null as false both in `if (state.isConnected)`
  and in the phone condition, so the model takes a `bool`.
- The `useEffect` re-subscription and cleanup (App.js:68-77). When a dependency
  changes, the cleanup can cancel a live timer. The re-subscription also
  replays NetInfo's initial-state callback. In the model, a pending timer fires
  exactly when `FireDisconnectTimer` is delivered, and only a connected input
  cancels it. The model also leaves out events delivered to a stale listener
  closure before React re-subscribes.
- Wall-clock time and `setTimeout`/`clearTimeout` (App.js:35, 40, 57, 62,
  82-84). The caller decides when timer and expiry events are delivered. The
  5000 ms and 10000 ms delays are named constants only. Nothing in the model
  enforces that the expiry of an entry comes after the entry was added.
- `new Date().toLocaleString()` (App.js:22). The timestamp is an opaque string
  passed in with each event.
- i18n.js: locale bootstrap with no logic of its own. i18n.js is not part of
  this model.
- `AppRegistry.registerComponent` (App.js:206): platform bootstrap.
- React state batching: the model applies each `set…` update at once and in
  program order. The listener reads each state variable before it changes, so
  the result is the same.
