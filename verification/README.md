# Serial bridge and dashboard history — a Dafny model

This project models the two pieces of logic in the FED_DIAG UIC demo.

- **The serial bridge** (`backend/uart-server.ts`) holds four things: a lamp pair
  `{vetel, musor}`, a serial port to the microcontroller, the command tokens it has written,
  and the WebSocket clients that mirror the lamps. The model covers these operations:
  - `sendToMCU`
  - `updateLampState` and `broadcastLampStates`
  - the serial `data` handler's `<UICV>` test, and the `handleUICV` reaction it triggers
  - the `/api/play`, `/api/stop` and `/api/lamps` handlers
  - the snapshot a WebSocket client receives when it connects
- **The dashboard** (`src/pages/Index.tsx`) keeps three current readings and three
  20-entry history windows. On each `sensorUpdate` message, each window drops its oldest
  point and appends the new one. The mock history generator clamps every value into [0, 100].

The model is functional. A `Server` value is the whole backend state, and each handler is
a pure function from one state to the next. The environment decides whether each serial
write succeeds, so a handler takes one outcome per command it may write. Serial writes and
lamp broadcasts go into one ordered `effects` log, which makes statements like "the lamp
is broadcast before any write" checkable. The dashboard state is a `View` record, and its
history window is the sequence operation `Shift`.

Modules:
- `Lamps` in `lamps.dfy`: the lamp pair.
- `Text` in `text.dfy`: the `includes` substring test, proved equal to "occurs at some offset".
- `UartServer` in `uart_server.dfy`: the bridge's operations.
- `UartTrace` in `uart_trace.dfy`: properties of runs of events, plus concrete scenarios.
- `Dashboard` in `dashboard.dfy`: the page's readings and history windows.

Facts about the code that shape the model:
- The code has no byte-stream framing. Each raw `data` chunk is searched on its own, so a
  `<UICV>` split across two chunks is never seen (`UartTrace.SplitNoticeIgnored`).
- The code has no command queue and no reply correlation. It does not parse `RDI`/`RTT`
  replies, does not poll sensors, and keeps no snapshot versions.
- The Stop handler writes nothing to the serial line. It only turns both lamps off.
- The backend only ever sends `lampUpdate` messages. The dashboard only reacts to
  `sensorUpdate`, so in this code the backend's feed never changes the page
  (`Dashboard.BridgeMessagesIgnored`).

## Model

| member | source | states |
|---|---|---|
| `Lamps.Set` | backend/uart-server.ts:95-96 | Writing one lamp gives it the new value. The other lamp keeps its old value. |
| `Lamps.SetCurrentIsNoOp` | backend/uart-server.ts:95-96 | Writing a lamp's current value back leaves the pair unchanged. The broadcast still happens (see `UartServer.UpdateLampState`). |
| `Lamps.SetSetSameLamp` | backend/uart-server.ts:95-96 | Of two writes to the same lamp, the last one wins. |
| `Text.Includes` | backend/uart-server.ts:44 | The substring scan returns true exactly when the token occurs in the chunk at some offset. |
| `UartServer.SendToMCU` | backend/uart-server.ts:60-78 | If the port is absent or closed, the call rejects with "port not open" and nothing changes. If the port is open, it resolves exactly when the write succeeds. Only a resolved write appends the command to the wire. |
| `UartServer.SendToOpenClients` | backend/uart-server.ts:107-111 | Every OPEN client receives the message exactly once. No other client receives anything. Ready states and the client list are unchanged. |
| `UartServer.BroadcastLampStates` | backend/uart-server.ts:101-112 | One `lampUpdate` is sent, carrying the full current pair, to exactly the OPEN clients. The lamps and the wire are unchanged. |
| `UartServer.UpdateLampState` | backend/uart-server.ts:95-98 | Exactly the named lamp is set; the other lamp is unchanged. Exactly one broadcast of the new pair follows, even when the value did not change. |
| `UartServer.RunSends` | backend/uart-server.ts:60-88 | Awaited sends go out in order, and the first rejection skips the rest. The number written is zero on an absent or closed port, and otherwise the number of successful outcomes before the first failure. The wire gains exactly those commands. The run succeeds exactly when every command was written. A failure names the port guard (then nothing was written) or the failed write. |
| `UartServer.HandleUICV` | backend/uart-server.ts:84-92 | `<WFS000>` is written, then `<WDS0>`. Only when both succeed is `vetel` set true, with one broadcast. If either fails, the later write is skipped, the lamps and clients are unchanged and nothing is broadcast. The error is swallowed. |
| `UartServer.OnData` | backend/uart-server.ts:40-47 | A chunk triggers the reaction exactly when `<UICV>` occurs in it. Otherwise the server is unchanged. |
| `UartServer.Play` | backend/uart-server.ts:117-135 | `musor` is lit and broadcast before any write. Then `<WFS110>`, `<WDS1>` and `<WFS100>` are written, up to the first failure. The reply is 200 exactly when all three writes succeed, and 500 with the cause otherwise. `musor` stays lit either way. |
| `UartServer.Stop` | backend/uart-server.ts:139-152 | Nothing is written to the wire. Exactly two broadcasts are made: `vetel` off with `musor` unchanged, then both off. Every OPEN client receives both, in that order; no other client receives anything, and the client list and ready states are unchanged. Both lamps end off and the reply is 200. |
| `UartServer.GetLamps` | backend/uart-server.ts:155-157 | The read changes nothing, and the body holds each lamp's current value. Its partners: `UartTrace.LampsEndpointAgreesWithClients` and `UartTrace.SnapshotMatchesLampsEndpoint`. |
| `UartServer.Connect` | backend/uart-server.ts:160-167 | The new client is OPEN and has received exactly one `lampUpdate` with the current pair. Existing clients, the lamps and the wire are unchanged. |
| `UartServer.CloseClient` | backend/uart-server.ts:169-171 | A closing socket leaves the OPEN state and keeps what it received. Every other client and the rest of the state are unchanged. |
| `UartTrace.StepPreservesGood` | backend/uart-server.ts:101-111 | Every event keeps two facts true. Every OPEN client's latest message carries the current lamp pair. Only the five known command tokens are on the wire. |
| `UartTrace.RunKeepsGood` | backend/uart-server.ts:95-167 | The same two facts hold after any run of chunks, requests, connections, closes and changes of the port (construction, opening, closing). |
| `UartTrace.FromStartKeepsGood` | backend/uart-server.ts:19-22 | Starting from both lamps off and no clients, the two facts hold after every run of events. |
| `UartTrace.RunOnlyAppends` | backend/uart-server.ts:60-78 | No event, including a change of the port, removes or rewrites an earlier write or broadcast. |
| `UartTrace.PortChangesOnlyByPortEvents` | backend/uart-server.ts:27-37 | The port's state changes only through the port's own events; chunks, requests and client events leave it as it was. |
| `UartTrace.PlayAfterPortOpens` | backend/uart-server.ts:117-135 | A port built closed that then opens lets a fully successful Play put `<WFS110>`, `<WDS1>`, `<WFS100>` on the wire, with `musor` lit. |
| `UartTrace.LampsEndpointAgreesWithClients` | backend/uart-server.ts:155-157 | In any state the events reach, `GET /api/lamps` reports exactly the pair every OPEN client received last. |
| `UartTrace.StopTwice` | backend/uart-server.ts:139-152 | A second Stop gives the same lamp state as one Stop (both off). Neither Stop writes to the wire. |
| `UartTrace.SnapshotMatchesLampsEndpoint` | backend/uart-server.ts:155-167 | `GET /api/lamps` changes nothing. It reports the same pair that a newly connected client receives. |
| `UartTrace.ChunkReactsAtMostOnce` | backend/uart-server.ts:40-47 | A chunk, however many notices it holds, adds one of three things: nothing; `<WFS000>` alone; or `<WFS000>`, `<WDS0>` and one broadcast of the new pair. Earlier effects are kept. |
| `UartTrace.TwoNoticesOneReaction` | backend/uart-server.ts:44-46 | A chunk with `<UICV>` at two offsets triggers one reaction: two writes and one broadcast. |
| `UartTrace.SplitNoticeIgnored` | backend/uart-server.ts:40-47 | `<UI` and `CV>` arriving in separate chunks trigger nothing. |
| `UartTrace.PlayAbortsOnSecondWrite` | backend/uart-server.ts:125-134 | If the second Play write fails, only `<WFS110>` reaches the wire. The reply is a 500 and `musor` stays lit. |
| `Dashboard.Clamp` | src/pages/Index.tsx:16 | The result lies in [0, 100]. It equals the input when the input is in range, and the nearer bound otherwise. |
| `Dashboard.GenerateHistoricalData` | src/pages/Index.tsx:8-19 | Exactly `points` entries are produced (none if `points` is not positive), oldest first and five minutes apart, the last at `now`, the one clock reading the call takes. Every value is in [0, 100] whatever the random draws. |
| `Dashboard.InitialWaterHistory` | src/pages/Index.tsx:29-34 | Twenty points at level 2. Point k is stamped 19-k five-minute steps before the clock reading taken for it. When the clock does not run backwards, consecutive points are at least five minutes apart. The last point carries its own clock reading. |
| `Dashboard.Shift` | src/pages/Index.tsx:54 | Entry i of the new window is entry i+1 of the old one, and the new reading is last. A non-empty window keeps its length; an empty one becomes `[next]`. |
| `Dashboard.ShiftAllIsSuffix` | src/pages/Index.tsx:54-61 | After any readings, a non-empty window holds the last entries of the old window followed by the readings, as many entries as it started with. |
| `Dashboard.ShiftAllKeepsLength` | src/pages/Index.tsx:54-61 | Sliding any number of readings through a non-empty window keeps its length. |
| `Dashboard.ShiftAllKeepsLatest` | src/pages/Index.tsx:54-61 | Once at least as many readings as the window's length have arrived, it holds exactly the latest readings. |
| `Dashboard.OnMessage` | src/pages/Index.tsx:44-62 | A message whose type is not `sensorUpdate` changes nothing. A `sensorUpdate` sets each current value from the message and slides each window by one. Each current value is then the newest point of its window, stamped with the arrival time. The windows keep their length. |
| `Dashboard.MessagesKeepWellFormed` | src/pages/Index.tsx:27-61 | All three windows hold twenty entries after any run of messages. |
| `Dashboard.BridgeMessagesIgnored` | src/pages/Index.tsx:49 | Every message the serial bridge sends (`lampUpdate`) leaves the page unchanged. |
| `Dashboard.InitialView` | src/pages/Index.tsx:23-34 | The page starts at 22.5, 35.3 and level 2, with three twenty-entry windows. The temperature values are in [0, 100] and the water values are all 2. Each temperature history is the generator's output around its start reading (variance 5 and 8) and ends at the instant its own generator call read. |

## Left out

- Serial port construction and configuration (115200 baud, 8N1), the `open` and `error`
  handlers, `server.listen` and the SIGINT shutdown are I/O plumbing. The port is a `Port`
  value: absent, closed or open. A `PortChange` event may set it to any such value at any
  point of a run, which covers construction, the asynchronous opening and a later close.
  Write success is an input.
- Logging (`console.log` / `console.error`) has no effect on the state and is omitted.
- The `delay(10)` and `delay(1000)` pauses inside Play are left out. So is the
  concurrency between the un-awaited `handleUICV` and the HTTP handlers: each sequence runs
  to completion or to its first failure on its own.
- A failed serial write is recorded as writing nothing. The driver's partial output, if
  any, is not modelled.
- The exact text of a 500 reply's `error` field (`String(error)`) is reduced to the
  failure's cause: port not open, or write failed.
- The JSON encoding of messages is left out. A message is its `type` tag plus its lamp
  pair (backend) or sensor record (page). JSON parse errors on the page are not modelled.
- The WebSocket library's own bookkeeping (when a socket becomes OPEN or leaves the client
  set) is reduced to `Connect` and `CloseClient`.
- Dashboard readings and chart values are `real`. Floating-point rounding and NaN are not
  modelled.
  `toLocaleTimeString` formatting is left out: chart labels are kept as the millisecond
  instants they are formatted from. `Math.random()` is an arbitrary oracle.
- The page's rendering and its components (audio player, gauges, water indicator, charts)
  are UI with no state logic to model.
- `UartServer.Stop` always answers 200. Its 500 branch is not reachable in the model,
  because lamp updates cannot fail here. A `client.send` that throws inside a broadcast
  is not modelled; it would reach the same `catch` in Play and Stop.
- Dashboard.GenerateHistoricalData: `points` is taken as an integer, while the page's
  parameter is any number. A fractional `points` would make the loop run floor(points) times
  and leave the last point before `now`; the page always passes the default 20.
- Each `sensorUpdate` field on the page is taken as a number. A message whose `sensors`
  is missing would throw in the page; that case is not modelled.
