# OCast manager: session and playback-gating state machine

This project models the decision logic of `OCastManager`, the bridge between a React
Native application and an OCast cast device. The manager tracks discovered devices,
selects one, connects to it with certificate failover, launches the receiver
application, and gates media commands on the connection and on the last known player
state.

The model is a pure state machine. The state is `Session`, which holds:

- the discovered `devices`;
- the selected `device`;
- `applicationName`;
- `lastState`, the last known player state;
- the discovery center's `running` flag and poll `interval`.

Each entry point is a function from a session and an `Env` to a `Step`. The `Env`
holds the SDK's answers. A `Step` holds the new session, the events emitted to the host
application in order, and the SDK calls issued in order.

Asynchronous completions are modelled as inputs:

- `Env.outcome(call)` is the `Ok`/`Err` completion of each call that reports only an
  optional error.
- `Env.version` and `Env.status` are the (value?, error?) completions of the
  version-info and playback-status pulls.
- `Env.linkUp` is the selected device's connection state, as the manager reads it.
- `Env.privateSettings` says whether the device exposes its private-settings channel.

Modules:

- `OCastTypes` (types.dfy): the vocabulary, including the event names and error codes
  with their exact strings.
- `Discovery` (discovery.dfy): the `didAdd`/`didRemove`/`centerDidStop` callbacks,
  `startScan`/`stopScan`, and the background/foreground hooks.
- `Negotiator` (negotiator.dfy): `initDevice`, the certificate failover, generic over
  its success continuation.
- `SessionControl` (session.dfy): device lookup, `pairDevice`, `connectToDevice`, the
  two continuations (`startApplication`, `sendPinNeeded`), the `ensureConnected` gate
  and `disconnect`.
- `Media` (media.dfy): `castMedia`, `resume`, `pause`, `seek`/`doSeek`, `stop`,
  `mute` and `updatePlaybackStatus`.
- `Manager` (manager.dfy): a dispatcher over all entry points, plus properties over
  single commands and over runs of commands.

The force-unwrap of the selected device in `ensureConnected` (OcastManager.swift:594)
is modelled as a precondition. Every gated command requires a selected device.
`Seek` requires exactly the condition under which the Swift code does not crash: a device is selected, or
the player is paused. A paused seek with no device does nothing, because its resume
is nil-safe.

Several behaviours of the code are surprising; the model follows the code in each
case:

- `didAdd` appends without de-duplicating.
- `didRemove` replaces the list with the center's own list instead of filtering it.
- A second failed connect attempt emits no error event.
- When `ensureConnected` reconnects, it drops the caller's completion, so the command
  is lost.
- `seek` resumes a paused player without the gate and without recording the new
  state.
- `mute` bypasses the gate.
- `applicationName` is stored but never read by the launch.

## Model

| member | source | states |
|---|---|---|
| OCastTypes.CodeString | OcastManager.swift:22-36 | each error code's string is non-empty |
| OCastTypes.CodeStringsDistinct | OcastManager.swift:22-36 | two error codes have the same string iff they are the same code |
| OCastTypes.NameString | OcastManager.swift:11-20 | every event name is in the "OCast:" namespace |
| OCastTypes.NameStringsDistinct | OcastManager.swift:11-20 | two events have the same name iff they are the same event |
| Discovery.Notify | OcastManager.swift:111-115 | one event per device, in the devices' order, each carrying that device |
| Discovery.DidAdd | OcastManager.swift:109-121 | the list becomes old list followed by the batch, duplicates kept (multiset union); one DEVICE_AVAILABLE per added device in order; nothing else changes |
| Discovery.DidRemove | OcastManager.swift:123-136 | the list becomes the center's current list; one DEVICE_LOST per removed device in order; nothing else changes |
| Discovery.CenterDidStop | OcastManager.swift:138-144 | a reported stop of discovery, with or without error, emits and issues nothing; only the center's running flag reads not running afterwards |
| Discovery.StartScan | OcastManager.swift:158-169 | afterwards discovery runs; resumeDiscovery is issued exactly when it was not running |
| Discovery.StopScan | OcastManager.swift:171-180 | afterwards discovery is paused; pauseDiscovery is issued exactly when it was running |
| Discovery.EnterBackground | OcastManager.swift:146-150 | interval becomes 30 and discovery is paused unconditionally |
| Discovery.EnterForeground | OcastManager.swift:152-156 | interval becomes 5 and discovery runs, resumed only if it was not running |
| Discovery.StartScanIdempotent | OcastManager.swift:163-168 | a second startScan is a no-op |
| Discovery.StopScanIdempotent | OcastManager.swift:176-179 | a second stopScan is a no-op |
| Discovery.BackgroundForegroundRoundTrip | OcastManager.swift:146-156 | background then foreground restores interval 5 with discovery running, via exactly one pause then one resume |
| Discovery.StartScanAfterCenterStop | OcastManager.swift:138-168 | after the center reports a stop, startScan issues resumeDiscovery again |
| Discovery.DidAddKeepsDuplicates | OcastManager.swift:120 | re-adding a listed device lists it once more |
| Negotiator.Attempts | OcastManager.swift:603-624 | one or two connects: with the "DEM412" bundle first, then with the "client" bundle only after "DEM412" failed |
| Negotiator.InitDevice | OcastManager.swift:603-617 | with a selected device: if either certificate connects, the attempts are followed by the continuation's effect exactly once; if both fail, only the two attempts, no event, no state change; with none, nothing |
| SessionControl.FirstIndex | OcastManager.swift:185 | the first device whose id matches, or none exactly when no device matches |
| SessionControl.LaunchApplication | OcastManager.swift:211-226 | startApplication is issued once; success emits DEVICE_CONNECTED with the selected device, failure CONNECT_FAILED |
| SessionControl.SendPinNeeded | OcastManager.swift:577-591 | versionInfo is issued iff a device and settings channel exist; PIN_NEEDED iff version info arrives, PAIRING_ERROR otherwise (error or nothing) |
| SessionControl.Reconnect | OcastManager.swift:596 | reconnecting yields the attempts, then launch and its single event only if a connect succeeded, session unchanged |
| SessionControl.EnsureConnected | OcastManager.swift:593-601 | connected: exactly the completion's effect, no connect; otherwise: a reconnection and nothing of the completion |
| SessionControl.EnsureConnectedDropsCompletion | OcastManager.swift:594-596 | when not connected the result is independent of the completion |
| SessionControl.PairDevice | OcastManager.swift:182-194 | unknown id: only PAIRING_ERROR, session unchanged; known id: first match selected, attempts, then the PIN request if connected |
| SessionControl.ConnectToDevice | OcastManager.swift:196-209 | unknown id: only CONNECT_FAILED, selection and application name unchanged; known id: first match selected, name stored, then a reconnection |
| SessionControl.Disconnect | OcastManager.swift:314-324 | disconnect issued iff a device is selected; DEVICE_DISCONNECTED iff it succeeds, failure silent; selection kept |
| Media.UIntValue | OcastManager.swift:418 | the unsigned 64-bit reading of the time: identity on [0, 2^64), wrap-around for negatives |
| Media.SeekSeconds | OcastManager.swift:418 | the position is the truncated quotient: secs*1000 <= ms < secs*1000 + 1000 |
| Media.SeekSecondsExamples | OcastManager.swift:418 | 5999 -> 5, 5000 -> 5, 999 -> 0, -1 wraps |
| Media.CastMedia | OcastManager.swift:326-353 | behind the gate: one prepareMedia with the placeholder logo, CAST_FAILED on failure, session unchanged |
| Media.Resume | OcastManager.swift:355-372 | when connected, resumeMedia issued iff paused; success sets playing, failure emits RESUME_FAILED and keeps the state; not paused: nothing |
| Media.Pause | OcastManager.swift:374-391 | when connected, pauseMedia issued iff playing; success sets paused, failure emits PAUSE_FAILED and keeps the state; not playing: nothing |
| Media.DoSeek | OcastManager.swift:412-431 | behind the gate: one seekMedia to the truncated seconds, SEEK_FAILED on failure |
| Media.Seek | OcastManager.swift:393-410 | session never changes; paused: resumeMedia first, and a failed resume gives only RESUME_FAILED; the seek follows only a successful resume |
| Media.SeekIssuedOnlyAfterResume | OcastManager.swift:393-431 | the seek is issued iff connected and, when paused, the resume succeeded; SEEK_FAILED implies a seek was issued |
| Media.Stop | OcastManager.swift:433-447 | behind the gate: one stopMedia, STOP_FAILED on failure, session unchanged |
| Media.Mute | OcastManager.swift:467-477 | no gate: muteMedia issued iff a device is selected, MUTE_FAILED on failure, never a connect |
| Media.UpdatePlaybackStatus | OcastManager.swift:497-513 | behind the gate: an error emits PLAYBACK_STATUS_UPDATE_FAILED and keeps the state; a status alone becomes lastState and is forwarded |
| Manager.LastStateWrites | OcastManager.swift:355-513 | lastState changes only by a successful resume (playing), pause (paused) or status pull (reported state) |
| Manager.DispatchFrame | OcastManager.swift:38-44 | devices change only by discovery callbacks, selection and app name only by pair/connect, the running flag only by scan control and the center's stop, the interval only by the background/foreground hooks; a selection is never cleared |
| Manager.DispatchPreservesWf | OcastManager.swift:38-44 | every command keeps "no player state without a selected device" and "interval is 5 or 30" |
| Manager.TrapsIffUnselected | OcastManager.swift:593-594 | in a well-formed session a command traps iff it reaches the gate with no device selected |
| Manager.ReconnectionAttempts | OcastManager.swift:603-624 | a reconnection connects with the bundles ["DEM412"] or ["DEM412", "client"], the second only after the first failed |
| Manager.GatedAttempts | OcastManager.swift:593-601 | a step behind the gate connects either not at all or as exactly one failover |
| Manager.PairAttempts | OcastManager.swift:182-194 | pairing connects either not at all (unknown id) or as exactly one failover |
| Manager.SeekAttempts | OcastManager.swift:393-431 | a seek, including its ungated resume, connects either not at all or as exactly one failover |
| Manager.AtMostTwoAttempts | OcastManager.swift:603-624 | no command issues more than two connects; two only as "DEM412" then "client", after "DEM412" failed |
| Manager.RunPreservesWf | OcastManager.swift:38-44 | any run keeps the session well formed |
| Manager.SelectedRunsNeverTrap | OcastManager.swift:593-601 | once a device is selected, no command sequence reaches the force-unwrap without one |
| Manager.RunAttemptsBounded | OcastManager.swift:603-617 | a run of n commands issues at most 2n connects |
| Manager.DiscoverThenConnect | OcastManager.swift:196-226 | discovered device, connect succeeds first try, launch succeeds: DEVICE_AVAILABLE then exactly one DEVICE_CONNECTED |

## Left out

- `volume`, `updateMetadata`, `setAudioTrack`, `reset`, `scanAPs`, `getAPList`, `setAP` and `setName` are outside the modelled core. The gated ones follow the same `ensureConnected` pattern as `Stop`.
- The `WebSocketDelegate` extension and its `DEVICE_ERROR` emission are not modelled.
- `sslConfiguration` is left out: bundle and file loading, the passwords and the validation flags. Only the bundle name chosen by the fallback flag is modelled. A missing resource gives a nil configuration, and that is covered by the abstract connect outcome.
- Double arithmetic is left out: the volume `level / 100`, the status `volume * 100`, and the `Double(positionSeconds)` passed to `seekMedia`. `SeekMedia` carries the integer seconds, which the Double conversion keeps exactly below 2^53.
- A seek time arriving from JavaScript as a fractional number is taken as an integer.
- Event payload dictionaries, the `options` dictionary of `castMedia` and the forced `as!` casts are left out; inputs are taken as well typed.
- The React Native bridge plumbing is left out: `constantsToExport`, `supportedEvents`, `requiresMainQueueSetup`. Logging (`print`/`dump`) is left out too.
- Threading, `[weak self]` capture and callback interleaving are left out. Each completion is assumed to arrive once, in order, within the entry point that caused it. A completion that never arrives would only end the chain early.
- The device's connection state is owned by the SDK. It is read as `Env.linkUp` and not tracked.
- The discovery center's `running` flag belongs to the center, and the manager only reads it. The model assumes `resumeDiscovery` sets it, while `pauseDiscovery` and a reported stop (`centerDidStop`) clear it. It is assumed not running at construction.
- A `Step` keeps the order of events and the order of calls, but not how the two interleave.
