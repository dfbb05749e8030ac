# Editor page room session, as a verified reducer

This project models the room-session logic of the collaborative code editor's
`EditorPage` React component. That logic covers the socket lifecycle (`connect`,
`disconnect`, `connect_error`, `connect_failed`), room membership
(`user-connected`, `user-disconnected`), handing the current code to a newcomer
(`codesync`), the leave button, and the effect cleanup on unmount. The handlers
become one pure transition function, `EditorPage.Step(state, event)`. It returns
the next state and the effects the handler performs, in order: socket emits,
toasts, navigation and socket disconnects. Mounting and unmounting are explicit
`Init` and `Cleanup` events. A socket event changes something only while its
listener is registered.

Files:

- `wrappers.dfy`: the `Option` type. For the code reference `None` is its
  initial `null`; for names it is `undefined`.
- `membership.dfy`: the `Client` record and removal by socket id (the
  `filter` in the departure handler), with its properties.
- `editor_page.dfy`: state, events, effects, one function per handler, `Step`,
  and the one-event properties.
- `traces.dfy`: `Run` over event sequences, and the properties that span
  several events. These are join counting, the frozen state after cleanup, and
  the replay of membership snapshots.

Modelling choices:

- **Names.** The local name (`location.state?.userName`) may be absent, and so
  may a payload name. Both are `Option<string>`, where `None` means
  `undefined`, and `!==` is inequality of these values. A toast renders an
  absent name as `undefined`, as a template literal does. A `null` name cannot
  be expressed (see "Left out").
- **Code reference.** `codeRef` is `Option<string>`, starting as `None`. The
  hand-off happens when the value is truthy: present and non-empty.
- **Socket reference.** `hasSocket` records whether `socketRef.current` is set.
  If Leave is used before a socket exists, the source throws on `null`; the
  model emits `NullSocketAccess` and nothing else. Cleanup without a socket does
  nothing. Cleanup does not clear the reference.
- **`disconnect()` and the flag.** socket.io runs the page's own `disconnect`
  listener inside `socket.disconnect()` when that listener is registered. Both
  Leave (line 19) and Cleanup (line 84, before the `off` calls at lines 85-88)
  therefore clear `connected` in the same step (`EditorPage.DisconnectCall`).

Where the code differs from what a session client is usually expected to do,
the model follows the code:

- `join-room` is sent once, by `Init`, and never again on `connect`
  (`Traces.JoinsMatchInits`).
- A connection error or failure shows a toast and navigates home, but leaves
  `connected` unchanged (`EditorPage.ErrorsKeepConnected`).
- Cleanup leaves the `connect_error` and `connect_failed` handlers registered
  (`EditorPage.ErrorHandlersSurviveCleanup`).
- Payload contents are never checked. A departure that names nobody still
  produces a "left" toast.
- A second cleanup leaves the state unchanged, but it disconnects the socket
  again (`EditorPage.CleanupIdempotentOnState`).
- The page decides whether a newcomer is itself by comparing display names. A
  different participant who shares the local name is therefore not announced
  (`EditorPage.SameNameIsNotAnnounced`).
- If cleanup runs before the async `init` has set the socket, it disconnects
  nothing. The later `init` then registers every listener on an unmounted page
  (`Traces.CleanupBeforeInitKeepsListening`).

## Model

| member | source | states |
|---|---|---|
| `Membership.RemoveById` | src/pages/EditorPage.js:76 | an entry survives a departure exactly when it was listed and its socket id differs from the departing id; the list never grows |
| `Membership.RemoveKeepsCounts` | src/pages/EditorPage.js:76 | every copy of an entry with the departing id is dropped, and every other entry keeps its number of copies |
| `Membership.RemoveIsSubsequence` | src/pages/EditorPage.js:76 | the survivors keep their original relative order |
| `Membership.RemoveNonMemberIsNoOp` | src/pages/EditorPage.js:76 | removing an id that no listed entry has returns the list unchanged |
| `Membership.RemoveIdempotent` | src/pages/EditorPage.js:76 | applying the same departure twice gives the same list as applying it once |
| `Membership.RemoveDistributes` | src/pages/EditorPage.js:76 | removal works element by element: removing from a concatenation is concatenating the removals |
| `Membership.RemoveCommutes` | src/pages/EditorPage.js:76 | two departures give the same list in either order |
| `Membership.RemoveAll` | src/pages/EditorPage.js:74-77 | after a run of departures, an entry is listed exactly when it was listed before and its id is none of the departed ids |
| `EditorPage.Mount` | src/pages/EditorPage.js:10-15 | the first render is disconnected, with an empty list, a null code reference, no socket and no listeners, for the given room and name |
| `EditorPage.InitSession` | src/pages/EditorPage.js:35-58 | init sets a socket with all six listeners and emits exactly one join request with the room id and the local name; connection flag, list and code are unchanged |
| `EditorPage.HandleConnect` | src/pages/EditorPage.js:38-40 | `connect` sets the flag to true, changes nothing else and emits nothing (in particular no re-join) |
| `EditorPage.HandleDisconnect` | src/pages/EditorPage.js:42-44 | `disconnect` sets the flag to false and changes nothing else |
| `EditorPage.HandleError` | src/pages/EditorPage.js:46-53 | an error shows one error toast "Socket connection failed", then navigates to "/", and leaves the whole state, including the connection flag, unchanged |
| `EditorPage.HandleUserConnected` | src/pages/EditorPage.js:60-72 | the payload list replaces the membership; a "joined" toast appears exactly when the payload name differs from the local name; a codesync is emitted exactly when the code is truthy, carrying that code and the newcomer's socket id; there are no other effects |
| `EditorPage.HandleUserDisconnected` | src/pages/EditorPage.js:74-77 | exactly one "left" toast; the list keeps exactly the entries whose socket id differs; nothing else changes |
| `EditorPage.ChangeCode` | src/pages/EditorPage.js:122-124 | an editor change stores the new code in the code reference and changes nothing else |
| `EditorPage.DisconnectCall` | src/pages/EditorPage.js:42-44 | calling `disconnect()` leaves the flag true only if it was true and the `disconnect` listener is not registered; nothing else changes |
| `EditorPage.HandleLeave` | src/pages/EditorPage.js:18-22 | with a socket, leave disconnects, shows "You left the room" and navigates to "/", and the disconnect clears the flag if the listener is registered; without a socket it fails at the first statement and changes nothing |
| `EditorPage.CleanupSession` | src/pages/EditorPage.js:82-90 | with a socket, cleanup disconnects it, so the flag is cleared while the `disconnect` listener is still registered, and then unregisters the membership and connect/disconnect listeners, keeping the error handlers; without a socket it does nothing |
| `EditorPage.Step` | src/pages/EditorPage.js:34-91 | a socket event whose listener is not registered changes nothing and emits nothing; no event changes the room id or the local name |
| `EditorPage.StepPreservesValid` | src/pages/EditorPage.js:36-47 | every step keeps the state well shaped: no listeners without a socket, and both error handlers present with one |
| `EditorPage.ConnectionFlagOnly` | src/pages/EditorPage.js:38-44 | `connect` and `disconnect` change only the flag and emit nothing |
| `EditorPage.UserConnectedIsSnapshot` | src/pages/EditorPage.js:64 | after `user-connected` the list is the payload, whatever the previous list was |
| `EditorPage.JoinedToastCount` | src/pages/EditorPage.js:61-63 | the "joined" toast occurs exactly once when the names differ and not at all when they are equal |
| `EditorPage.SameNameIsNotAnnounced` | src/pages/EditorPage.js:61 | a newcomer who carries the local name is not announced, whatever its socket id |
| `EditorPage.CodesyncIffTruthy` | src/pages/EditorPage.js:66-71 | exactly one codesync with the stored code and the payload socket id when the code is truthy; no codesync at all otherwise |
| `EditorPage.UserDisconnectedAlwaysToasts` | src/pages/EditorPage.js:74-77 | a departure always gives exactly one "left" toast, and a non-member's departure leaves the state unchanged |
| `EditorPage.UserDisconnectedIdempotent` | src/pages/EditorPage.js:76 | delivering the same departure twice leaves the same state as delivering it once |
| `EditorPage.ErrorsKeepConnected` | src/pages/EditorPage.js:46-53 | with a socket, both error signals give the error toast and the navigation home, and leave the state unchanged |
| `EditorPage.ErrorHandlersSurviveCleanup` | src/pages/EditorPage.js:82-89 | after cleanup, an error signal still gives the error toast and the navigation home |
| `EditorPage.CleanupClearsConnected` | src/pages/EditorPage.js:84-88 | cleaning up a page whose `disconnect` listener is registered leaves it disconnected and keeps its list |
| `EditorPage.CleanupIdempotentOnState` | src/pages/EditorPage.js:82-90 | a second cleanup leaves the state as the first did, and disconnects the socket once more |
| `Traces.Run` | src/pages/EditorPage.js:34-91 | no sequence of events changes the room id or the local name |
| `Traces.RunConcat` | src/pages/EditorPage.js:34-91 | running two event sequences one after the other equals running their concatenation, for both the state and the effects |
| `Traces.RunPreservesValid` | src/pages/EditorPage.js:36-47 | every state reachable from a well-shaped state is well shaped |
| `Traces.StepJoinCount` | src/pages/EditorPage.js:55-58 | one event emits one join request if it is `Init` and none otherwise |
| `Traces.JoinsMatchInits` | src/pages/EditorPage.js:38-40 | over any sequence of events, the number of join requests equals the number of `Init` events, so `connect` never re-joins |
| `Traces.InitThenConnectsJoinsOnce` | src/pages/EditorPage.js:55-58 | mounting followed by any connects and disconnects emits exactly one join request, first, with the room id and the local name |
| `Traces.DetachedIsFrozen` | src/pages/EditorPage.js:85-88 | with the cleaned listeners gone, events short of a new `Init` change neither the list nor the flag, and emit no codesync or join request |
| `Traces.LateEventsAfterCleanup` | src/pages/EditorPage.js:82-90 | events delivered after cleanup, short of a new `Init`, leave the list as it was before the cleanup, and the flag as the cleanup left it: cleared if the `disconnect` listener was registered, unchanged otherwise |
| `Traces.ListeningWithoutCleanup` | src/pages/EditorPage.js:60-77 | the membership listeners stay registered over any sequence of events without a cleanup |
| `Traces.ReplayWithoutSnapshot` | src/pages/EditorPage.js:74-77 | without a snapshot, the list is the starting list minus every departure, applied in order |
| `Traces.LastSnapshotWins` | src/pages/EditorPage.js:64-76 | the list after any sequence of events is the last snapshot minus the departures after it: an entry is listed exactly when it is in that snapshot and its id is not among those departures |
| `Traces.NewcomerScenario` | src/pages/EditorPage.js:60-72 | with code in hand, a newcomer named differently is listed, announced with "<name> joined", and sent the code |
| `Traces.ConnectErrorAfterMount` | src/pages/EditorPage.js:46-58 | mount then connect error gives the join request, one error toast and the navigation home, and the flag stays false |
| `Traces.CleanupBeforeInitKeepsListening` | src/pages/EditorPage.js:80-90 | a cleanup before init disconnects nothing, and the later init registers every listener |

## Left out

- src/socket.js: it only configures `socket.io-client` (reconnection attempts,
  the 10-second timeout, transports) and logs to the console. Reconnection and
  the timeout are library behaviour. They show up here only as the `Connect`,
  `Disconnect`, `ConnectError` and `ConnectFailed` events.
- Everything else the library does in `disconnect()`, such as sending the
  disconnect packet and dropping buffered messages. `SocketDisconnect` is an
  opaque effect; only its synchronous call of the page's `disconnect` listener
  is modelled.
- `handleCopyBtn` (clipboard, lines 24-32): browser I/O outside the session
  logic.
- The `console.log` in the error handler: logging has no observable effect here.
- Rendering, the `Client` and `Editor` components, the redirect when there is no
  `location.state` (lines 93-95), and the logo and CSS. The receiving side of
  `codesync` lives in `Editor`, which is not part of this model.
- React mechanics: `useRef`/`useState`, the await in `init`, and re-running the
  effect when its dependencies change. Mount and unmount are the explicit `Init`
  and `Cleanup` events.
- `EditorPage.InitSession`: the model has one socket, and the timing of the
  async `init` is left out. A cleanup that runs while `init` is still awaiting
  (line 83) sees no socket, or the previous one, so the socket that line 36 sets
  later is never cleaned. With `[Cleanup, Init, Init]` (mount, unmount, mount)
  the source ends with two live sockets, each with all six listeners, and a
  later `user-connected` toasts and sends codesync twice. The model's second
  `Init` discards the first socket's listeners, so it toasts once.
- Payload types: payloads are assumed well typed. Names are strings or absent
  (`undefined`), and `clients` is a list of `{socketId, userName}`. A `null`
  name, which the source would render as "null" and treat as different from an
  absent local name, cannot be expressed. Neither can a `clients` value that is
  not an array, after which the next departure throws at line 76.
- Network I/O, other clients, and the order in which concurrent `codesync`
  messages arrive.
