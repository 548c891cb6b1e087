# wetty session broker — a Dafny model

wetty is a terminal in the browser: a socket.io connection carries keystrokes to a pty on
the server and the pty's output back. This project models the part of wetty that keeps a
terminal alive across dropped connections:

- the server-side session registry (`SessionManager`), which keeps pty sessions keyed by a
  random id, refreshes them on use, and sweeps away sessions that timed out or whose client
  stayed away past a grace period;
- `spawn` and `attachSocketToSession`, which start a pty (or reuse a registered one), wire
  socket and pty events together, and announce the session id to the client;
- the server's `connection` handler, which reattaches a session by the id in the handshake
  before any authentication, tells a client with a stale id to forget it, and otherwise
  resolves the command and spawns a new session, keeping the connection gauge right;
- the browser side: the socket.io path derived from the page path, the single
  `localStorage` key holding the id, the `auth` payload of each handshake and the handlers
  that keep the key current;
- `ConnectionResilience`, a client state machine that forces a reconnect when a page returns
  from the background with the socket down, and decides which disconnects stay hidden.

The modules follow the source: `Registry` (sessionManager.ts), `Relay` (spawn.ts), `Server`
(the handler in server.ts), `ClientSocket` (socket.ts) and `Resilience` (resilience.ts).
`Transport` holds the pty and server-socket handles the server code talks to, `Base` the
`Option` type and JavaScript truthiness of a string, and `Resumption` the lemmas that join
the server and the client into the end-to-end resumption story.

Objects that the source mutates are classes: `SessionManager` (its sessions map, its event
log, whether the sweep timer runs, and a ghost multiset counting `kill` calls per pty),
`Pty`, `Socket`, the `Wiring` closures of one attachment, `ConnectionHandler` (the gauge and a
log of observable steps), `Storage`, the client `IoSocket`, `SessionClient` and
`ConnectionResilience`. Each method modelling a source operation states in its `ensures` every field in its `modifies` frame, usually through a
value-level function (`Touched`, `Attached`, `Detached`, `Sweep`, `ConnectionSteps`,
`ConnectionEmissions`, `Foreground`, `Disconnected`), and lemmas prove what the source
promises about those functions.

Time and the outcome of foreign calls are inputs: every operation that reads `Date.now()`
takes `now`; `crypto.randomBytes(16)` is a 16-byte `randomBytes` argument; the answers of
`getCommand` (a command or a throw), `envVersionOr`, `pty.spawn` (whether it throws) and the
flow-control counter (`account` / `commit`) are parameters.

## Model

| member | source | states |
|---|---|---|
| Registry.Address | src/server/sessionManager.ts:37 | the display address is `args[1]` for an `ssh` command, `localhost` otherwise, and undefined exactly for the one-element `["ssh"]` |
| Registry.Touched | src/server/sessionManager.ts:62-74 | a lookup refreshes only the hit record's activity; keys and every other record are unchanged |
| Registry.Attached | src/server/sessionManager.ts:76-88 | attaching marks only that record active and refreshed; keys and other records unchanged |
| Registry.Detached | src/server/sessionManager.ts:90-108 | detaching marks only that record inactive and refreshed; the record stays registered |
| Registry.Classify | src/server/sessionManager.ts:136-149 | a session is kept exactly when within the 30-minute timeout and either attached or within the 5-minute grace period; timeout is tested first; an attached session is never reclaimed by the grace rule |
| Registry.Sweep | src/server/sessionManager.ts:131-158 | the sweep only removes: what it keeps is unchanged |
| Registry.SweepKeeps | src/server/sessionManager.ts:136-153 | a session survives the sweep if and only if it is within the timeout and attached or within its grace period |
| Registry.ActiveReclaimedOnlyByTimeout | src/server/sessionManager.ts:140-148 | an attached session is removed if and only if its idle time exceeds the absolute timeout |
| Registry.AttachAbsorbsTouch | src/server/sessionManager.ts:62-88 | a lookup followed by an attach equals the attach alone, whatever instant the lookup read |
| Registry.AttachAfterCreate | src/server/sessionManager.ts:39-48 | attaching a just-created active record changes only its activity, to the attach's instant |
| Registry.AttachRegistered | src/server/sessionManager.ts:39-48 | attaching a just-created record (active, refreshed now) changes nothing |
| Registry.SessionManager.constructor | src/server/sessionManager.ts:21-33 | the registry starts empty, owned, with no events and the sweep scheduled |
| Registry.SessionManager.CreateSession | src/server/sessionManager.ts:35-60 | registers `Session(id, term, now, active, args, Address(args))` under `id`, returns it, and keeps ownership when the pty is new and unkilled |
| Registry.SessionManager.ProcessExited | src/server/sessionManager.ts:52-57 | a pty exit only appends `session-ended(id, exitCode)`; the record stays and nothing is killed |
| Registry.SessionManager.GetSession | src/server/sessionManager.ts:62-74 | returns the refreshed record exactly when the id is registered; the registry becomes `Touched` |
| Registry.SessionManager.AttachSocket | src/server/sessionManager.ts:76-88 | answers whether the id is registered; the registry becomes `Attached` |
| Registry.SessionManager.DetachSocket | src/server/sessionManager.ts:90-108 | the registry becomes `Detached`; the pty is not killed |
| Registry.SessionManager.RemoveSession | src/server/sessionManager.ts:110-129 | answers whether the id was registered; if so, kills its pty once, deletes it and appends `session-removed`; otherwise nothing changes; ownership is kept |
| Registry.SessionManager.ExpiredIds | src/server/sessionManager.ts:134-149 | the collected ids are distinct and are exactly the registered ids whose verdict is not Keep |
| Registry.SessionManager.KeyList | src/server/sessionManager.ts:175 | every registered id, each exactly once |
| Registry.SessionManager.RemoveNext | src/server/sessionManager.ts:151-153 | one removal of the sweep loop: the map loses the next listed id; the `session-removed` log and the kill tally each gain exactly that id |
| Registry.SessionManager.RemoveEach | src/server/sessionManager.ts:151-153 | removing distinct registered ids in order deletes exactly them, appends one `session-removed` per id in that order, and kills each one's pty |
| Registry.SessionManager.CleanupSessions | src/server/sessionManager.ts:131-158 | the registry becomes `Sweep(old, now)`; each removed session's pty has been killed exactly once; ownership is kept |
| Registry.SessionManager.Shutdown | src/server/sessionManager.ts:168-178 | stops the sweep timer and removes every session, killing each pty exactly once |
| Registry.SessionManager.ActiveSessions | src/server/sessionManager.ts:160-162 | exactly the registered records that are attached |
| Registry.SessionManager.SessionCount | src/server/sessionManager.ts:164-166 | zero exactly when the registry is empty |
| Registry.OwnershipAfterRemoval | src/server/sessionManager.ts:151-153 | removing distinct ids from an owned registry kills each of their ptys exactly once and no other pty |
| Registry.RemovalKeepsOwnership | src/server/sessionManager.ts:110-129 | removing one session keeps the registry owned and its pty has been killed exactly once |
| Registry.KilledTermsCount | src/server/sessionManager.ts:151-153 | with distinct ids and distinct ptys, each listed session's pty is killed once and any other not at all |
| Registry.RemoveStep | src/server/sessionManager.ts:151-153 | in an in-order removal the next id is still registered, with its record unchanged; the map loses it, and the removal log and the kill tally each gain it |
| Registry.RefreshKeepsOwnership | src/server/sessionManager.ts:67 | updating a record without changing its pty keeps the registry owned |
| Relay.Hex | src/server/spawn.ts:11 | hex encoding: two lower-case hex digits per byte |
| Relay.Unhex | src/server/spawn.ts:11 | reading hex back: one byte per two digits, the inverse the round trip uses |
| Relay.HexValue | src/server/spawn.ts:11 | the value of a hex digit, inverse to `HexDigit` |
| Relay.UnhexHex | src/server/spawn.ts:11 | decoding the hex encoding gives back the bytes |
| Relay.GenerateSessionId | src/server/spawn.ts:10-12 | a session id is 32 lower-case hex digits and determines the 16 random bytes it came from |
| Relay.EnvArgs | src/server/spawn.ts:31-32 | env's arguments are `args`, preceded by `-S` exactly when env is version 9 or later |
| Relay.Wiring.OnData | src/server/spawn.ts:63-68 | pty output goes to the send buffer, and the pty is paused exactly when the flow-control counter is over its high-water mark |
| Relay.Wiring.OnResize | src/server/spawn.ts:73-75 | a `resize` event resizes the pty and does nothing else |
| Relay.Wiring.OnInput | src/server/spawn.ts:77-79 | an `input` event writes to the pty and does nothing else |
| Relay.Wiring.OnCommit | src/server/spawn.ts:81-85 | a `commit` resumes the pty exactly when the counter falls below its mark |
| Relay.Wiring.OnDisconnect | src/server/spawn.ts:87-102 | removes the data, resize, input and commit listeners and detaches the session; the pty is neither killed nor sent anything |
| Relay.Wire | src/server/spawn.ts:104-108 | registers exactly the `resize`, `input`, `disconnect` and `commit` listeners of the attachment |
| Relay.AttachSocketToSession | src/server/spawn.ts:48-109 | marks the session attached, emits `login`, and registers one pty data listener and the four socket listeners of a fresh attachment |
| Relay.Spawn | src/server/spawn.ts:14-46 | an existing session is reattached (its pty gains one data listener and receives no operation) and its id re-announced; a failing pty start leaves everything unchanged; otherwise a new pty that has received no operation runs `EnvArgs(version, args)` under the generated id, attached, and that id is announced after `login`; the returned wiring belongs to this socket and this registry |
| Relay.Reuse | src/server/spawn.ts:21-27 | the existing-session branch: attach, `login`, then the session's own id; the returned wiring belongs to this socket and this registry |
| Relay.Launch | src/server/spawn.ts:30-45 | the new-session branch: a fresh pty that only this attachment listens to and that has received no operation, registered and attached, the id announced after `login`; the returned wiring belongs to this socket and this registry |
| Server.Found | src/server.ts:83-91 | a lookup happens and hits exactly when the handshake id is truthy and registered, and returns the refreshed record |
| Server.ConnectionSteps | src/server.ts:79-112 | every connection first increments the gauge, and takes at least three steps |
| Server.LookupSteps | src/server.ts:83-100 | the registry-check steps; their meaning is stated by `LookupStepsShape` |
| Server.LookupStepsShape | src/server.ts:86-100 | exactly a truthy id is looked up, and cleared exactly when the lookup missed |
| Server.ConnectionEmissions | src/server.ts:91-107 | what one connection sends the client; its meaning is stated by `EmissionsShape` |
| Server.ClearNotice | src/server.ts:97-98 | `clear-session-id` for a stale truthy id; stated by `EmissionsShape` |
| Server.Announcement | src/server/spawn.ts:42-45 | `login` and the new id unless resolution or spawn threw; stated by `EmissionsShape` |
| Server.EmissionsShape | src/server.ts:86-112 | `clear-session-id` exactly for a stale truthy id and as the first message, `login` exactly when the handler does not throw, and any `session-id` names the reattached session or the new one |
| Server.AuthSteps | src/server.ts:102-112 | the normal flow resolves the command first and ends with a gauge decrement exactly when resolution or spawn throws |
| Server.ReattachSkipsAuthentication | src/server.ts:91-95 | a registry hit spawns on the found session and never resolves a command, clears the id or decrements the gauge |
| Server.StaleIdClearedFirst | src/server.ts:96-107 | a truthy id that misses is answered with `clear-session-id` before command resolution, and the spawn that follows always creates a new session |
| Server.NoIdAuthenticates | src/server.ts:86-107 | without a truthy id nothing is looked up or cleared and command resolution comes first |
| Server.DecrementOnlyOnFailure | src/server.ts:79-112 | the gauge is decremented exactly when the handler throws, once, as its last step |
| Server.ConnectionHandler.constructor | src/server.ts:70 | the gauge starts at zero with no steps logged |
| Server.ConnectionHandler.OnConnection | src/server.ts:70-113 | the steps taken are `ConnectionSteps`, the socket is sent `ConnectionEmissions`, the gauge rises by one unless the handler throws; a hit reattaches the found session, adding the four socket wires and one data listener on its pty and sending the pty nothing; a failure leaves the registry and the socket listeners unchanged; a success registers exactly one new session on a fresh pty running env's arguments that has received no operation, with the four wires added; the returned wiring belongs to this socket and this registry |
| Server.ConnectionHandler.Resume | src/server.ts:91-95 | the rest of a connection whose id was found: the full step log, messages and registry of a reattachment, which never throws; the returned wiring belongs to this socket and this registry |
| Server.ConnectionHandler.Admit | src/server.ts:97-112 | the rest of a connection with no id or a stale one: the full step log, gauge, messages, registry and listeners of the normal flow; the returned wiring belongs to this socket and this registry |
| Server.ConnectionHandler.LookUp | src/server.ts:83-100 | a truthy id is looked up; a hit is refreshed and returned; a miss is answered with `clear-session-id` |
| Server.ConnectionHandler.Reattach | src/server.ts:91-95 | a hit spawns with the found session's own arguments: it is attached, its id re-announced after `login`, the four wires and one data listener added, and its pty sent nothing; the returned wiring belongs to this socket and this registry |
| Server.ConnectionHandler.Authenticate | src/server.ts:102-112 | command resolution and spawn; on a throw the gauge is decremented and the registry and listeners are unchanged, otherwise one new session on a fresh pty is registered under the generated id and wired; the returned wiring belongs to this socket and this registry |
| Server.ConnectionHandler.SpawnGuarded | src/server.ts:107-111 | the spawn inside the `try`, with the decrement of the `catch` exactly when the pty fails to start; a success is a fresh pty running `EnvArgs(version, args)` that only the new attachment listens to; the returned wiring belongs to this socket and this registry |
| ClientSocket.Trim | src/client/wetty/socket.ts:3 | the result is a prefix of the input with no trailing slash, and only slashes were removed |
| ClientSocket.TrimSplits | src/client/wetty/socket.ts:3 | the input is its trim followed by a run of slashes |
| ClientSocket.TrimOfPadded | src/client/wetty/socket.ts:3 | a slash-free ending followed by any run of slashes trims back to itself |
| ClientSocket.TrimIdempotent | src/client/wetty/socket.ts:3 | trimming twice equals trimming once |
| ClientSocket.TrimKeepsUnslashed | src/client/wetty/socket.ts:3 | a string not ending in a slash is left unchanged |
| ClientSocket.LastSlash | src/client/wetty/socket.ts:32 | the index of the last slash, or -1 when there is none |
| ClientSocket.StripSsh | src/client/wetty/socket.ts:32 | a final `ssh/<segment>`, with a non-empty segment free of slashes, is cut off wherever it matches; without a match the string is unchanged |
| ClientSocket.SshSuffixUnique | src/client/wetty/socket.ts:32 | such a match can only start three characters before the last slash |
| ClientSocket.SocketBase | src/client/wetty/socket.ts:32 | the trimmed page path, cut before a final `ssh/<segment>` wherever that matches and otherwise unchanged; always a prefix of the trimmed path |
| ClientSocket.SocketPath | src/client/wetty/socket.ts:35 | the socket.io path ends in `/socket.io` after the trimmed socket base |
| ClientSocket.SocketPathUnderPage | src/client/wetty/socket.ts:32-35 | the part before `/socket.io` is a prefix of the page path and does not end in a slash |
| ClientSocket.SshPageUsesBase | src/client/wetty/socket.ts:32-35 | the terminal page `<base>/ssh/<user>` connects to `<base>/socket.io` |
| ClientSocket.Storage.constructor | src/client/wetty/socket.ts:6-30 | storage starts with the given items and failure modes |
| ClientSocket.StoredSessionId | src/client/wetty/socket.ts:8-14 | the value under `wetty_session_id`; null when there is none or storage is blocked |
| ClientSocket.StoreSessionId | src/client/wetty/socket.ts:16-22 | writes the id under the key; a failing write is swallowed and changes nothing |
| ClientSocket.ClearStoredSessionId | src/client/wetty/socket.ts:24-30 | removes the key and nothing else; a failing access is swallowed |
| ClientSocket.AuthPayload | src/client/wetty/socket.ts:44-48 | the handshake carries `{ sessionId }` exactly when the stored id is truthy, and then that id |
| ClientSocket.Presented | src/client/wetty/socket.ts:44-48 | the id the server reads from the handshake: the truthy stored id under the callback, or the pinned id |
| ClientSocket.PinnedAuth | src/client/wetty/socket.ts:64-70 | a truthy stored id is pinned into `socket.auth`; otherwise `auth` is kept |
| ClientSocket.PinningPresentsStoredId | src/client/wetty/socket.ts:44-70 | pinning does not change which id the next handshake presents for the same storage |
| ClientSocket.PinnedIdOutlivesClear | src/client/wetty/socket.ts:56-70 | once pinned, the id is still presented after storage is cleared, and a later attempt with empty storage keeps it |
| ClientSocket.IoSocket.constructor | src/client/wetty/socket.ts:34-49 | a new socket is not connected and takes its auth from storage |
| ClientSocket.IoSocket.Connect | src/client/wetty/resilience.ts:165 | one more `connect()` call |
| ClientSocket.SessionClient.constructor | src/client/wetty/socket.ts:51-70 | the handlers share one socket and one storage |
| ClientSocket.SessionClient.OnSessionId | src/client/wetty/socket.ts:52-54 | with working storage the announced id is written under the key and every other item is kept; otherwise storage is unchanged |
| ClientSocket.SessionClient.OnLogout | src/client/wetty/socket.ts:56-58 | afterwards no id is stored; exactly the key is removed, or storage is unchanged when blocked |
| ClientSocket.SessionClient.OnClearSessionId | src/client/wetty/socket.ts:60-62 | afterwards no id is stored; exactly the key is removed, or storage is unchanged when blocked |
| ClientSocket.SessionClient.OnReconnectAttempt | src/client/wetty/socket.ts:64-70 | `socket.auth` becomes `PinnedAuth` of the stored id |
| ClientSocket.ReconnectPresentsAssignedId | src/client/wetty/socket.ts:44-70 | with working storage, an id the server assigned is the one presented on the next reconnect, whatever `auth` held before, a pinned older id included |
| Resilience.Backgrounded | src/client/wetty/resilience.ts:54-81 | hiding marks the page as in background since `now` and changes nothing else |
| Resilience.Debounced | src/client/wetty/resilience.ts:86-89 | a foreground call less than 100 ms after the previous one; its consequences are stated by `Foreground` and `ForegroundDebouncesRepeat` |
| Resilience.Foreground | src/client/wetty/resilience.ts:83-105 | a return within 100 ms of the previous one changes nothing; otherwise the page is in foreground with no background time, and attempts and history are kept |
| Resilience.ForegroundReconnects | src/client/wetty/resilience.ts:95-101 | the forced-reconnect condition of a return, including the guard of `attemptReconnection` (line 156); characterised by `HideThenReturn` |
| Resilience.Disconnected | src/client/wetty/resilience.ts:112-128 | in background every disconnect leaves the state unchanged; in foreground it clears `wasConnected` |
| Resilience.Suppresses | src/client/wetty/resilience.ts:170-177 | the UI is suppressed exactly in background for the three transport reasons and `io server disconnect` |
| Resilience.SettledPreserved | src/client/wetty/resilience.ts:54-128 | every event keeps the invariant that only a page in background has a background time; every state-changing handler of `ConnectionResilience` states that it keeps it |
| Resilience.ForegroundDebouncesRepeat | src/client/wetty/resilience.ts:83-89 | a second return at the same instant is a no-op and never reconnects |
| Resilience.HideThenReturn | src/client/wetty/resilience.ts:54-105 | after hiding at `t`, a return at `t2` reconnects exactly when `t` is positive, the absence exceeded 10 s, and the socket was connected before and is not now; the page ends in foreground |
| Resilience.DebouncedReturnStaysBackground | src/client/wetty/resilience.ts:83-89 | a debounced return leaves a visible page marked as in background, so silent disconnects stay suppressed |
| Resilience.BackgroundDisconnectInert | src/client/wetty/resilience.ts:112-128 | in background a disconnect never changes the state, and the silent reasons are suppressed |
| Resilience.NoReconnectWithoutHistory | src/client/wetty/resilience.ts:95-101 | a socket never connected is never force-reconnected |
| Resilience.ConnectionResilience.constructor | src/client/wetty/resilience.ts:13-28 | the state starts as the initial state, with no callback |
| Resilience.ConnectionResilience.SetReconnectCallback | src/client/wetty/resilience.ts:30-32 | a callback is installed |
| Resilience.ConnectionResilience.HandleVisibilityChange | src/client/wetty/resilience.ts:54-61 | hidden: `Backgrounded`, socket untouched; visible: the foreground handler |
| Resilience.ConnectionResilience.HandlePageHide | src/client/wetty/resilience.ts:63-66 | the state becomes `Backgrounded` |
| Resilience.ConnectionResilience.HandlePageShow | src/client/wetty/resilience.ts:68-70 | the foreground handler |
| Resilience.ConnectionResilience.HandleFocus | src/client/wetty/resilience.ts:72-76 | the foreground handler only when marked as in background; otherwise nothing changes |
| Resilience.ConnectionResilience.HandleBlur | src/client/wetty/resilience.ts:78-81 | the state becomes `Backgrounded` |
| Resilience.ConnectionResilience.HandleForeground | src/client/wetty/resilience.ts:83-105 | the state becomes `Foreground`, and exactly when `ForegroundReconnects` the stored id is pinned and `connect()` is called once |
| Resilience.ConnectionResilience.HandleConnect | src/client/wetty/resilience.ts:107-110 | records a connection and resets the attempt count |
| Resilience.ConnectionResilience.HandleDisconnect | src/client/wetty/resilience.ts:112-128 | the state becomes `Disconnected` |
| Resilience.ConnectionResilience.HandleReconnect | src/client/wetty/resilience.ts:130-135 | resets the attempts and runs the callback exactly when one is installed and the socket had been connected |
| Resilience.ConnectionResilience.HandleReconnectAttempt | src/client/wetty/resilience.ts:137-139 | records the attempt number and nothing else |
| Resilience.ConnectionResilience.HandleReconnectError | src/client/wetty/resilience.ts:141-146 | changes nothing |
| Resilience.ConnectionResilience.HandleConnectError | src/client/wetty/resilience.ts:148-153 | changes nothing |
| Resilience.ConnectionResilience.AttemptReconnection | src/client/wetty/resilience.ts:155-167 | only a disconnected socket that had been connected is reconnected, once, with a truthy stored id pinned first |
| Resilience.ConnectionResilience.ShouldSuppressDisconnectUI | src/client/wetty/resilience.ts:170-177 | true exactly in background for the four suppressed reasons |
| Resilience.ConnectionResilience.GetState | src/client/wetty/resilience.ts:180-182 | the current state, as a value |
| Resumption.GeneratedIdTruthy | src/server/spawn.ts:10-12 | a generated id is never empty, so a client that stored it presents it on the next handshake |
| Resumption.AnnouncedIdResumes | src/server.ts:83-95 | a client presenting the announced id of a registered session is reattached: `login` and the same id, nothing else is run |
| Resumption.SweptIdCleared | src/server/sessionManager.ts:131-158 | a session the sweep reclaimed is not found later: the client is first told to clear its id, then given a new one if the spawn succeeds |
| Resumption.WithinGraceResumes | src/server/sessionManager.ts:144-148 | a detached client returning within the grace period is reattached, without a `clear-session-id` |
| Resumption.ConnectThenDisconnect | src/server/spawn.ts:87-102 | a new session's own disconnect leaves it registered under its announced id, detached since the disconnect, its pty unkilled, sent nothing and no longer listened to, with only the disconnect handler left of its socket wires |
| Resumption.OpenSession | src/server.ts:102-108 | a handshake without an id and a pty that starts: one new session under the generated id, on a fresh pty that only this wiring listens to, announced after `login`, wired to this socket and registry |

## Left out

- Timers: the 5-minute `setInterval` of the sweep is modelled only as the `sweeping` flag; sweeps are calls of `CleanupSessions(now)`.
- `Date.now()` is a `now` parameter. `handleForeground` reads the clock twice (lines 84 and 96 of resilience.ts); the model uses one instant for both.
- The server reads the clock separately for the `getSession` lookup and the later `attachSocket` (server.ts:83-91 with spawn.ts:55), and for `createSession` and its `attachSocket` (spawn.ts:41-44 with 55). The model gives each connection one `now`. This loses no registry state: both calls overwrite `lastActivity` of the same record, so only the attach's instant survives (`Registry.AttachAbsorbsTouch`, `Registry.AttachAfterCreate`).
- Logging, and every metric except the `wetty_connections` gauge, are not modelled.
- The dynamic `import('./server/sessionManager.js')` in the handler always yields the one registry.
- node-pty, socket.io, `crypto`, `localStorage` and the flow-control counter are not modelled as real APIs. Their results are parameters: whether `pty.spawn` throws, the random bytes, env's version, a thrown `getCommand`, and the `account`/`commit` answers.
- Relay.Spawn: the reattach branch is treated as never throwing; a throw inside `attachSocketToSession` is not modelled.
- `tinybuffer` batching is not modelled: the send buffer is the sequence of chunks handed to it.
- A failing `term.kill()` is caught by the source, and the model gives the same state either way.
- Map iteration order is not modelled. The sweep and shutdown remove ids in some order, which the ghost `removed` result records. Registry.SessionManager.ActiveSessions returns a set, not an ordered array.
- The `session-ended` and `session-removed` emitter events are an append-only event log, with no listeners.
- `removeListener('data', onData)` in the disconnect handler is modelled as removing the data listener. What node-pty actually does with it is not modelled.
- Registry.SessionManager.CreateSession overwrites an existing record on an id collision, as `Map.set` does. No lemma rules out a collision of random ids.
- The handshake id is a string or absent. A non-string `auth.sessionId` (cast with `as string`) is not modelled.
- The async interleaving of several connections, and of events during an `await`, is not modelled. Each handler runs to completion.
- The socket.io server setup, the HTTP routes, the service worker, `mobile.ts`, `wetty.ts` and the terminal UI are not part of this model.
- Resilience.ConnectionResilience.HandleReconnect records that the callback ran but not what it does.
- Resilience.ConnectionResilience.GetState returns a value, so the source's copy semantics hold without more work.
