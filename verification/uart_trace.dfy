/**
  Properties of the serial bridge that span several operations: runs of
  events from the start state, what every OPEN client has last been told,
  which tokens ever reach the wire, and a few concrete scenarios.
 */
module UartTrace {
  import opened Lamps
  import opened Text
  import opened UartServer

  /** One thing that can happen to the bridge, with the write outcomes it needs. */
  datatype Event =
    | Data(chunk: string, ok1: bool, ok2: bool)
    | PlayRequest(ok1: bool, ok2: bool, ok3: bool)
    | StopRequest
    | LampsRequest
    | Connection
    | Close(client: nat)
    | PortChange(port: Port)

  function Step(s: Server, e: Event): Server
  {
    match e
    case Data(chunk, ok1, ok2) => OnData(s, chunk, [ok1, ok2])
    case PlayRequest(ok1, ok2, ok3) => Play(s, [ok1, ok2, ok3]).server
    case StopRequest => Stop(s).server
    case LampsRequest => GetLamps(s).server
    case Connection => Connect(s)
    case Close(i) => CloseClient(s, i)
    case PortChange(p) => s.(port := p)
  }

  function RunEvents(s: Server, events: seq<Event>): Server
    decreases |events|
  {
    if |events| == 0 then s else RunEvents(Step(s, events[0]), events[1..])
  }

  /** The last message an inbox holds carries `lamps`. */
  predicate LastIs(inbox: seq<Message>, lamps: LampPair)
  {
    |inbox| > 0 && inbox[|inbox| - 1] == LampUpdate(lamps)
  }

  /** Every OPEN client has last been told the server's current lamp pair. */
  predicate ClientsCurrent(s: Server)
  {
    forall i :: 0 <= i < |s.clients| && s.clients[i].readyState == Open ==> LastIs(s.clients[i].inbox, s.lamps)
  }

  /** The five command tokens the server ever writes. */
  predicate KnownCommand(c: string)
  {
    c in UicvCommands || c in PlayCommands
  }

  /** Only the five known tokens are ever written to the wire. */
  predicate WireKnown(effects: seq<Effect>)
  {
    forall i :: 0 <= i < |effects| && effects[i].Wrote? ==> KnownCommand(effects[i].command)
  }

  predicate Good(s: Server)
  {
    ClientsCurrent(s) && WireKnown(s.effects)
  }

  /** A delivery of the new pair to the OPEN clients brings them all up to date. */
  lemma DeliveryMakesCurrent(before: seq<Client>, after: seq<Client>, lamps: LampPair)
    requires DeliveredToOpen(before, after, LampUpdate(lamps))
    ensures forall i :: 0 <= i < |after| && after[i].readyState == Open ==> LastIs(after[i].inbox, lamps)
  {
  }

  lemma WritesKnown(prefix: seq<Effect>, cmds: seq<string>)
    requires WireKnown(prefix)
    requires forall c :: c in cmds ==> KnownCommand(c)
    ensures WireKnown(prefix + Writes(cmds))
  {
  }

  lemma DataPreservesGood(s: Server, chunk: string, ok1: bool, ok2: bool)
    requires Good(s)
    ensures Good(OnData(s, chunk, [ok1, ok2]))
  {
    var r := OnData(s, chunk, [ok1, ok2]);
    if PortOpen(s.port) && ok1 && ok2 && r != s {
      DeliveryMakesCurrent(s.clients, r.clients, r.lamps);
      assert KnownCommand(WFS000) && KnownCommand(WDS0);
    } else if PortOpen(s.port) && ok1 {
      assert KnownCommand(WFS000);
    }
  }

  lemma PlayPreservesGood(s: Server, ok1: bool, ok2: bool, ok3: bool)
    requires Good(s)
    ensures Good(Play(s, [ok1, ok2, ok3]).server)
  {
    var r := Play(s, [ok1, ok2, ok3]).server;
    DeliveryMakesCurrent(s.clients, r.clients, r.lamps);
    var n := Written(s.port, [ok1, ok2, ok3]);
    var mid := s.effects + [Broadcast(LampUpdate(r.lamps))];
    assert WireKnown(mid);
    WritesKnown(mid, PlayCommands[..n]);
  }

  lemma StopPreservesGood(s: Server)
    requires Good(s)
    ensures Good(Stop(s).server)
  {
    var dark := UpdateLampState(s, Vetel, false);
    var r := UpdateLampState(dark, Musor, false);
    DeliveryMakesCurrent(dark.clients, r.clients, r.lamps);
  }

  lemma ConnectPreservesGood(s: Server)
    requires Good(s)
    ensures Good(Connect(s))
  {
    var r := Connect(s);
    forall i | 0 <= i < |r.clients| && r.clients[i].readyState == Open
      ensures LastIs(r.clients[i].inbox, r.lamps)
    {
      if i < |s.clients| {
        assert r.clients[i] == s.clients[i];
      }
    }
  }

  /** Every event keeps the OPEN clients current and the wire to known tokens. */
  lemma StepPreservesGood(s: Server, e: Event)
    requires Good(s)
    ensures Good(Step(s, e))
  {
    match e
    case Data(chunk, ok1, ok2) => DataPreservesGood(s, chunk, ok1, ok2);
    case PlayRequest(ok1, ok2, ok3) => PlayPreservesGood(s, ok1, ok2, ok3);
    case StopRequest => StopPreservesGood(s);
    case LampsRequest =>
    case Connection => ConnectPreservesGood(s);
    case Close(i) =>
    case PortChange(p) =>
  }

  /** Whatever happens from the start state, OPEN clients hold the current pair and the wire only known tokens. */
  lemma {:induction false} RunKeepsGood(s: Server, events: seq<Event>)
    requires Good(s)
    ensures Good(RunEvents(s, events))
    decreases |events|
  {
    if |events| > 0 {
      StepPreservesGood(s, events[0]);
      RunKeepsGood(Step(s, events[0]), events[1..]);
    }
  }

  lemma FromStartKeepsGood(port: Port, events: seq<Event>)
    ensures Good(RunEvents(Initial(port), events))
  {
    RunKeepsGood(Initial(port), events);
  }

  /** Nothing an event does retracts or rewrites an earlier effect. */
  lemma {:induction false} RunOnlyAppends(s: Server, events: seq<Event>)
    ensures |s.effects| <= |RunEvents(s, events).effects|
    ensures RunEvents(s, events).effects[..|s.effects|] == s.effects
    decreases |events|
  {
    if |events| > 0 {
      var next := Step(s, events[0]);
      assert next.effects[..|s.effects|] == s.effects;
      RunOnlyAppends(next, events[1..]);
    }
  }

  /** Only the port's own events change it: no request, chunk or client event does. */
  lemma {:induction false} PortChangesOnlyByPortEvents(s: Server, events: seq<Event>)
    requires forall i :: 0 <= i < |events| ==> !events[i].PortChange?
    ensures RunEvents(s, events).port == s.port
    decreases |events|
  {
    if |events| > 0 {
      var next := Step(s, events[0]);
      assert next.port == s.port;
      PortChangesOnlyByPortEvents(next, events[1..]);
    }
  }

  /** The port is built closed; once it opens, a Play request gets all three commands onto the wire. */
  lemma PlayAfterPortOpens()
    ensures var r := RunEvents(Initial(Present(false)), [PortChange(Present(true)), PlayRequest(true, true, true)]);
      && r.lamps == LampPair(false, true)
      && WireLog(r.effects) == PlayCommands
  {
    var start := Initial(Present(true));
    var r := Play(start, [true, true, true]).server;
    assert LeadingSuccesses([true, true, true]) == 3;
    assert PlayCommands[..3] == PlayCommands;
    WireLogAppend([Broadcast(LampUpdate(r.lamps))], Writes(PlayCommands));
    WireLogOfWrites(PlayCommands);
  }

  /** Stopping twice leaves the lamps dark as once does, and neither stop writes to the wire. */
  lemma StopTwice(s: Server)
    ensures Stop(Stop(s).server).server.lamps == Stop(s).server.lamps == AllOff
    ensures WireLog(Stop(Stop(s).server).server.effects) == WireLog(s.effects)
  {
    var once := Stop(s).server;
    var twice := Stop(once).server;
    WireLogAppend(s.effects, once.effects[|s.effects|..]);
    assert s.effects + once.effects[|s.effects|..] == once.effects;
    WireLogAppend(once.effects, twice.effects[|once.effects|..]);
    assert once.effects + twice.effects[|once.effects|..] == twice.effects;
  }

  /** `GET /api/lamps` reports the pair every OPEN client has last been told. */
  lemma LampsEndpointAgreesWithClients(s: Server, i: nat)
    requires Good(s)
    requires i < |s.clients| && s.clients[i].readyState == Open
    ensures var inbox := s.clients[i].inbox;
      |inbox| > 0 && GetLamps(s).response == LampsBody(inbox[|inbox| - 1].lamps)
  {
  }

  /** A new client's first message and `GET /api/lamps` report the same pair, and the read changes nothing. */
  lemma SnapshotMatchesLampsEndpoint(s: Server)
    ensures GetLamps(s).server == s
    ensures Connect(s).clients[|s.clients|].inbox == [LampUpdate(GetLamps(s).response.lamps)]
  {
  }

  /**
    A chunk, however many notices it holds, adds nothing, or `<WFS000>` alone,
    or the two reaction tokens followed by one broadcast.
   */
  lemma ChunkReactsAtMostOnce(s: Server, chunk: string, ok1: bool, ok2: bool)
    ensures var r := OnData(s, chunk, [ok1, ok2]);
      && |s.effects| <= |r.effects| <= |s.effects| + 3
      && r.effects[..|s.effects|] == s.effects
      && r.effects[|s.effects|..] in {[], [Wrote(WFS000)], [Wrote(WFS000), Wrote(WDS0), Broadcast(LampUpdate(r.lamps))]}
      && |WireLog(r.effects)| <= |WireLog(s.effects)| + 2
  {
    var r := OnData(s, chunk, [ok1, ok2]);
    var added := r.effects[|s.effects|..];
    assert s.effects + added == r.effects;
    WireLogAppend(s.effects, added);
    if PortOpen(s.port) && ok1 && ok2 && r != s {
      var b := Broadcast(LampUpdate(r.lamps));
      assert added == [Wrote(WFS000), Wrote(WDS0), b];
      assert added[1..][1..] == [b];
      assert WireLog([b]) == [];
    }
  }

  /** Two back-to-back notices in one chunk trigger a single reaction. */
  lemma TwoNoticesOneReaction(s: Server)
    requires PortOpen(s.port)
    ensures var chunk := UICV + UICV;
      && OccursAt(chunk, UICV, 0) && OccursAt(chunk, UICV, |UICV|)
      && OnData(s, chunk, [true, true]).effects ==
         s.effects + [Wrote(WFS000), Wrote(WDS0), Broadcast(LampUpdate(LampPair(true, s.lamps.musor)))]
  {
  }

  /** A notice split across two chunks is never seen: neither half contains `<UICV>`. */
  lemma SplitNoticeIgnored(s: Server, ok1: bool, ok2: bool)
    ensures OnData(OnData(s, "<UI", [ok1, ok2]), "CV>", [ok1, ok2]) == s
  {
  }

  /** A failed second Play write leaves only `<WFS110>` on the wire, answers 500, and keeps the programme lamp lit. */
  lemma PlayAbortsOnSecondWrite(s: Server, ok3: bool)
    requires PortOpen(s.port)
    ensures var r := Play(s, [true, false, ok3]);
      && r.response == ServerError(WriteFailed)
      && r.server.lamps.musor
      && WireLog(r.server.effects) == WireLog(s.effects) + [WFS110]
  {
    var r := Play(s, [true, false, ok3]);
    assert LeadingSuccesses([true, false, ok3]) == 1;
    assert PlayCommands[..1] == [WFS110];
    WireLogAppend(s.effects + [Broadcast(LampUpdate(r.server.lamps))], Writes([WFS110]));
    WireLogAppend(s.effects, [Broadcast(LampUpdate(r.server.lamps))]);
    WireLogOfWrites([WFS110]);
  }
}
