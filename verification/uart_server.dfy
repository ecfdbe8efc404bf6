/**
  The serial bridge of the backend: one in-memory lamp pair, one serial port
  to the microcontroller, and the WebSocket clients that mirror the lamps.

  The model is functional. A `Server` value is the whole state; every
  operation returns the next one. Whether a write to the serial port succeeds
  is decided by the environment, so each operation that writes takes one
  outcome per command it may send. Logging is left out; the order of what the
  server does to the outside world (serial writes and lamp broadcasts) is kept
  in a single `effects` log.
 */
module UartServer {
  import opened Lamps
  import opened Text

  /** Command tokens written to the microcontroller, exactly as sent. */
  const WFS000: string := "<WFS000>"
  const WDS0: string := "<WDS0>"
  const WFS110: string := "<WFS110>"
  const WDS1: string := "<WDS1>"
  const WFS100: string := "<WFS100>"

  /** The token whose arrival from the microcontroller puts the server into reception mode. */
  const UICV: string := "<UICV>"

  /** The two commands the server writes, in this order, when it sees `<UICV>`. */
  const UicvCommands: seq<string> := [WFS000, WDS0]

  /** What `POST /api/play` writes after lighting the programme lamp. */
  const PlayCommands: seq<string> := [WFS110, WDS1, WFS100]

  /** The serial port: never constructed (construction threw), or constructed and open or not. */
  datatype Port = Absent | Present(isOpen: bool)

  predicate PortOpen(p: Port)
  {
    p.Present? && p.isOpen
  }

  /** Why `sendToMCU` rejected: the port guard, or an error reported by the write callback. */
  datatype SendError = PortNotOpen | WriteFailed

  /** WebSocket ready states, numbered 0..3 in the `ws` library; 1 is OPEN. */
  datatype ReadyState = Connecting | Open | Closing | Closed

  /** The JSON message `{ type: 'lampUpdate', lamps }`, the only kind the server sends. */
  datatype Message = LampUpdate(lamps: LampPair)

  /** The `type` tag of a message as it appears in its JSON text. */
  function MessageType(m: Message): string
  {
    "lampUpdate"
  }

  datatype Client = Client(readyState: ReadyState, inbox: seq<Message>)

  /** Something the server did to the outside world, in the order it did it. */
  datatype Effect = Wrote(command: string) | Broadcast(message: Message)

  datatype Server = Server(lamps: LampPair, port: Port, clients: seq<Client>, effects: seq<Effect>)

  /** The result of a request handler: the HTTP body the client receives. */
  datatype Response =
    | Ok(message: string)           // status 200, `{ success: true, message }`
    | ServerError(error: SendError) // status 500, `{ success: false, error }`
    | LampsBody(lamps: LampPair)    // status 200, the bare lamp record

  datatype Reply = Reply(server: Server, response: Response)

  /** The outcome of `sendToMCU`'s promise: resolved, or rejected with a reason. */
  datatype Outcome = Done | Failed(error: SendError)

  datatype Sent = Sent(server: Server, outcome: Outcome)

  /** The server as it stands before any event: lamps dark, no clients, nothing sent. */
  function Initial(port: Port): Server
  {
    Server(AllOff, port, [], [])
  }

  /** The serial-write entries of the effects log, one per command, in order. */
  function Writes(cmds: seq<string>): (r: seq<Effect>)
    decreases |cmds|
    ensures |r| == |cmds|
    ensures forall i :: 0 <= i < |cmds| ==> r[i] == Wrote(cmds[i])
  {
    if |cmds| == 0 then [] else [Wrote(cmds[0])] + Writes(cmds[1..])
  }

  /** The commands that reached the wire, read back from the effects log. */
  function WireLog(effects: seq<Effect>): (r: seq<string>)
    ensures |r| <= |effects|
  {
    if |effects| == 0 then []
    else
      var rest := WireLog(effects[1..]);
      if effects[0].Wrote? then [effects[0].command] + rest else rest
  }

  /** The serial-write log of `Writes(cmds)` is `cmds` again. */
  lemma {:induction false} WireLogOfWrites(cmds: seq<string>)
    ensures WireLog(Writes(cmds)) == cmds
    decreases |cmds|
  {
    if |cmds| > 0 {
      assert Writes(cmds)[1..] == Writes(cmds[1..]);
      WireLogOfWrites(cmds[1..]);
    }
  }

  /** The wire log of two effect runs is the wire log of each, one after the other. */
  lemma {:induction false} WireLogAppend(a: seq<Effect>, b: seq<Effect>)
    ensures WireLog(a + b) == WireLog(a) + WireLog(b)
    decreases |a|
  {
    if |a| > 0 {
      assert (a + b)[1..] == a[1..] + b;
      WireLogAppend(a[1..], b);
    } else {
      assert a + b == b;
    }
  }

  /**
    `sendToMCU(command)`: rejects without writing when the port is absent or
    not open; otherwise writes, and `ok` is the environment's verdict on the
    write. Only a successful write is recorded on the wire.
   */
  function SendToMCU(s: Server, command: string, ok: bool): (r: Sent)
    ensures r.outcome.Done? <==> PortOpen(s.port) && ok
    ensures !PortOpen(s.port) ==> r == Sent(s, Failed(PortNotOpen))
    ensures PortOpen(s.port) && !ok ==> r == Sent(s, Failed(WriteFailed))
    ensures r.outcome.Done? ==> r.server == s.(effects := s.effects + [Wrote(command)])
  {
    if !PortOpen(s.port) then Sent(s, Failed(PortNotOpen))
    else if !ok then Sent(s, Failed(WriteFailed))
    else Sent(s.(effects := s.effects + [Wrote(command)]), Done)
  }

  /**
    Every client of `after` is the same client of `before`, and exactly the
    OPEN ones have received `m` as one more message; nobody else got anything.
   */
  predicate DeliveredToOpen(before: seq<Client>, after: seq<Client>, m: Message)
  {
    && |after| == |before|
    && forall i :: 0 <= i < |before| ==>
         && after[i].readyState == before[i].readyState
         && after[i].inbox == (if before[i].readyState == Open then before[i].inbox + [m] else before[i].inbox)
  }

  /**
    The same as `DeliveredToOpen`, for a run of messages: exactly the OPEN
    clients have received all of `ms`, in order, and nobody else got anything.
   */
  predicate DeliveredAllToOpen(before: seq<Client>, after: seq<Client>, ms: seq<Message>)
  {
    && |after| == |before|
    && forall i :: 0 <= i < |before| ==>
         && after[i].readyState == before[i].readyState
         && after[i].inbox == (if before[i].readyState == Open then before[i].inbox + ms else before[i].inbox)
  }

  /** Two deliveries in a row deliver both messages, in order, to the same OPEN clients. */
  lemma DeliveriesCompose(a: seq<Client>, b: seq<Client>, c: seq<Client>, m1: Message, m2: Message)
    requires DeliveredToOpen(a, b, m1)
    requires DeliveredToOpen(b, c, m2)
    ensures DeliveredAllToOpen(a, c, [m1, m2])
  {
  }

  /** `wss.clients.forEach(client => if OPEN then client.send(message))`. */
  function SendToOpenClients(clients: seq<Client>, m: Message): (r: seq<Client>)
    ensures DeliveredToOpen(clients, r, m)
    decreases |clients|
  {
    if |clients| == 0 then []
    else
      var c := clients[0];
      var head := if c.readyState == Open then Client(c.readyState, c.inbox + [m]) else c;
      [head] + SendToOpenClients(clients[1..], m)
  }

  /** `broadcastLampStates()`: one `lampUpdate` carrying the current pair, to every OPEN client. */
  function BroadcastLampStates(s: Server): (r: Server)
    ensures r.lamps == s.lamps && r.port == s.port
    ensures r.effects == s.effects + [Broadcast(LampUpdate(s.lamps))]
    ensures DeliveredToOpen(s.clients, r.clients, LampUpdate(s.lamps))
  {
    var m := LampUpdate(s.lamps);
    Server(s.lamps, s.port, SendToOpenClients(s.clients, m), s.effects + [Broadcast(m)])
  }

  /**
    `updateLampState(lamp, state)`: sets exactly the named lamp, then
    broadcasts the whole pair once, whether or not the value changed.
   */
  function UpdateLampState(s: Server, lamp: Lamp, state: bool): (r: Server)
    ensures Get(r.lamps, lamp) == state
    ensures Get(r.lamps, Other(lamp)) == Get(s.lamps, Other(lamp))
    ensures r.port == s.port
    ensures r.effects == s.effects + [Broadcast(LampUpdate(r.lamps))]
    ensures DeliveredToOpen(s.clients, r.clients, LampUpdate(r.lamps))
  {
    BroadcastLampStates(s.(lamps := Set(s.lamps, lamp, state)))
  }

  /** The writes of a non-empty prefix: the first command, then the rest's prefix. */
  lemma WritesPrefixCons(cmds: seq<string>, k: nat)
    requires k < |cmds|
    ensures Writes(cmds[..k + 1]) == [Wrote(cmds[0])] + Writes(cmds[1..][..k])
  {
    assert cmds[..k + 1] == [cmds[0]] + cmds[1..][..k];
  }

  /** The number of leading successes in `oks`: how far a run gets on an open port. */
  function LeadingSuccesses(oks: seq<bool>): (n: nat)
    ensures n <= |oks|
    ensures forall i :: 0 <= i < n ==> oks[i]
    ensures n < |oks| ==> !oks[n]
  {
    if |oks| == 0 || !oks[0] then 0 else 1 + LeadingSuccesses(oks[1..])
  }

  /** How many commands of a run reach the wire: none on a closed port, else up to the first failure. */
  function Written(port: Port, oks: seq<bool>): (n: nat)
    ensures n <= |oks|
  {
    if PortOpen(port) then LeadingSuccesses(oks) else 0
  }

  /** Where a run of awaited `sendToMCU` calls stopped: after `written` successful writes. */
  datatype Progress = Progress(server: Server, written: nat, outcome: Outcome)

  /**
    A run of `await sendToMCU(c)` statements inside one `try`: the commands go
    out in order, and the first rejection skips all the rest. Nothing but the
    effects log changes, and it gains exactly the commands that were written.
   */
  function RunSends(s: Server, cmds: seq<string>, oks: seq<bool>): (r: Progress)
    requires |oks| == |cmds|
    ensures r.server.lamps == s.lamps && r.server.port == s.port && r.server.clients == s.clients
    ensures r.written <= |cmds| && r.server.effects == s.effects + Writes(cmds[..r.written])
    ensures r.outcome.Done? <==> r.written == |cmds|
    ensures r.written == Written(s.port, oks)
    ensures forall i :: 0 <= i < r.written && i < |oks| ==> oks[i]
    ensures r.written < |cmds| && PortOpen(s.port) ==> !oks[r.written] && r.outcome == Failed(WriteFailed)
    ensures r.written < |cmds| && !PortOpen(s.port) ==> r.written == 0 && r.outcome == Failed(PortNotOpen)
    decreases |cmds|
  {
    if |cmds| == 0 then
      Progress(s, 0, Done)
    else
      var first := SendToMCU(s, cmds[0], oks[0]);
      if first.outcome.Failed? then
        Progress(s, 0, first.outcome)
      else
        var rest := RunSends(first.server, cmds[1..], oks[1..]);
        WritesPrefixCons(cmds, rest.written);
        Progress(rest.server, rest.written + 1, rest.outcome)
  }

  /**
    `handleUICV()`: writes `<WFS000>` then `<WDS0>`, and only once both have
    gone out lights the reception lamp (which broadcasts). Any rejection is
    caught and logged, so the caller sees no error either way.
   */
  function HandleUICV(s: Server, oks: seq<bool>): (r: Server)
    requires |oks| == |UicvCommands|
    ensures r.port == s.port
    ensures PortOpen(s.port) && oks[0] && oks[1] ==>
      && r.lamps == LampPair(true, s.lamps.musor)
      && r.effects == s.effects + [Wrote(WFS000), Wrote(WDS0), Broadcast(LampUpdate(r.lamps))]
      && DeliveredToOpen(s.clients, r.clients, LampUpdate(r.lamps))
    ensures !(PortOpen(s.port) && oks[0] && oks[1]) ==>
      && r.lamps == s.lamps
      && r.clients == s.clients
      && r.effects == s.effects + (if PortOpen(s.port) && oks[0] then [Wrote(WFS000)] else [])
  {
    var run := RunSends(s, UicvCommands, oks);
    if run.outcome.Done? then
      UpdateLampState(run.server, Vetel, true)
    else
      assert run.written == 1 ==> UicvCommands[..run.written] == [WFS000];
      run.server
  }

  /**
    The serial `data` handler: the raw chunk is searched for `<UICV>`, and
    the reaction runs once if it occurs anywhere in the chunk, however many
    times; otherwise the server is left as it was.
   */
  function OnData(s: Server, chunk: string, oks: seq<bool>): (r: Server)
    requires |oks| == |UicvCommands|
    ensures Occurs(chunk, UICV) ==> r == HandleUICV(s, oks)
    ensures !Occurs(chunk, UICV) ==> r == s
  {
    if Includes(chunk, UICV) then HandleUICV(s, oks) else s
  }

  /**
    `POST /api/play`: lights the programme lamp (and broadcasts) before any
    write, then writes `<WFS110>`, `<WDS1>`, `<WFS100>` in order. The first
    rejection skips the remaining writes and answers 500, but the programme
    lamp stays lit.
   */
  function Play(s: Server, oks: seq<bool>): (r: Reply)
    requires |oks| == |PlayCommands|
    ensures r.server.lamps == LampPair(s.lamps.vetel, true)
    ensures r.server.port == s.port
    ensures DeliveredToOpen(s.clients, r.server.clients, LampUpdate(r.server.lamps))
    ensures r.server.effects ==
      s.effects + [Broadcast(LampUpdate(r.server.lamps))] + Writes(PlayCommands[..Written(s.port, oks)])
    ensures r.response.Ok? <==> PortOpen(s.port) && oks[0] && oks[1] && oks[2]
    ensures r.response.Ok? ==> r.response == Ok("Audio sequence started")
    ensures !PortOpen(s.port) ==> r.response == ServerError(PortNotOpen)
    ensures PortOpen(s.port) && !r.response.Ok? ==> r.response == ServerError(WriteFailed)
  {
    var lit := UpdateLampState(s, Musor, true);
    var run := RunSends(lit, PlayCommands, oks);
    if run.outcome.Done? then
      Reply(run.server, Ok("Audio sequence started"))
    else
      Reply(run.server, ServerError(run.outcome.error))
  }

  /**
    `POST /api/stop`: writes nothing to the wire; turns the reception lamp
    off, then the programme lamp, broadcasting after each, and answers 200.
   */
  function Stop(s: Server): (r: Reply)
    ensures r.server.lamps == AllOff
    ensures r.server.port == s.port
    ensures r.server.effects == s.effects + [
      Broadcast(LampUpdate(LampPair(false, s.lamps.musor))),
      Broadcast(LampUpdate(AllOff))]
    ensures DeliveredAllToOpen(s.clients, r.server.clients, [LampUpdate(LampPair(false, s.lamps.musor)), LampUpdate(AllOff)])
    ensures r.response == Ok("Stopped and cleared lamps")
  {
    var dark := UpdateLampState(s, Vetel, false);
    var r := UpdateLampState(dark, Musor, false);
    DeliveriesCompose(s.clients, dark.clients, r.clients, LampUpdate(dark.lamps), LampUpdate(r.lamps));
    Reply(r, Ok("Stopped and cleared lamps"))
  }

  /** `GET /api/lamps`: the current pair, read without changing anything. */
  function GetLamps(s: Server): (r: Reply)
    ensures r.server == s
    ensures r.response == LampsBody(s.lamps)
  {
    Reply(s, LampsBody(s.lamps))
  }

  /**
    A WebSocket `connection`: the new client is OPEN and has received exactly
    one `lampUpdate` with the current pair; nothing else changes.
   */
  function Connect(s: Server): (r: Server)
    ensures |r.clients| == |s.clients| + 1
    ensures r.clients[..|s.clients|] == s.clients
    ensures r.clients[|s.clients|] == Client(Open, [LampUpdate(s.lamps)])
    ensures r.lamps == s.lamps && r.port == s.port && r.effects == s.effects
  {
    s.(clients := s.clients + [Client(Open, [LampUpdate(s.lamps)])])
  }

  /** A client's socket closes: the library moves it out of the OPEN state. */
  function CloseClient(s: Server, i: nat): (r: Server)
    ensures |r.clients| == |s.clients|
    ensures i < |s.clients| ==> r.clients[i].readyState == Closed && r.clients[i].inbox == s.clients[i].inbox
    ensures forall j :: 0 <= j < |s.clients| && j != i ==> r.clients[j] == s.clients[j]
    ensures r.lamps == s.lamps && r.port == s.port && r.effects == s.effects
  {
    if i < |s.clients| then
      s.(clients := s.clients[i := Client(Closed, s.clients[i].inbox)])
    else s
  }
}
