/**
  The dashboard page's sensor state: three current readings and three
  fixed-length history windows that slide by one on every sensor update.

  Readings are JavaScript numbers, modelled as `real` (floating-point
  rounding is left out). Chart labels are the `Date` instants before they are
  formatted, in milliseconds. `Math.random()` is an oracle `random` whose
  `k`-th value is the number drawn by the `k`-th call.
 */
module Dashboard {
  import UartServer

  /** One chart point `{ time, value }`. */
  datatype Point = Point(time: int, value: real)

  /** Five minutes in milliseconds: the spacing of generated history points. */
  const Interval: int := 5 * 60 * 1000

  /** The default `points` argument of the history generator. */
  const DefaultPoints: int := 20

  /**
    The length every history window starts with: the water history's twenty
    points, and the generator's `DefaultPoints` for the temperature windows.
   */
  const HistoryLength: nat := 20

  /** The `type` tag the page reacts to. */
  const SensorUpdate: string := "sensorUpdate"

  /** `Math.max(0, Math.min(100, value))`. */
  function Clamp(value: real): (r: real)
    ensures 0.0 <= r <= 100.0
    ensures 0.0 <= value <= 100.0 ==> r == value
    ensures value < 0.0 ==> r == 0.0
    ensures value > 100.0 ==> r == 100.0
  {
    var low := if 100.0 < value then 100.0 else value;
    if 0.0 < low then low else 0.0
  }

  /** The `k`-th point the generator pushes, counted from the oldest. */
  function GeneratedPoint(baseValue: real, variance: real, points: int, now: int, random: nat -> real, k: nat): Point
  {
    Point(now - (points - 1 - k) * Interval, Clamp(baseValue + (random(k) - 0.5) * variance))
  }

  /**
    `generateHistoricalData(baseValue, variance, points)`: one point per
    five-minute step ending at `now`, oldest first, each value a perturbed
    `baseValue` clamped into [0, 100]. A non-positive `points` yields no data.
   */
  method GenerateHistoricalData(baseValue: real, variance: real, points: int, now: int, random: nat -> real)
    returns (data: seq<Point>)
    ensures |data| == if points > 0 then points else 0
    ensures forall k :: 0 <= k < |data| ==> data[k] == GeneratedPoint(baseValue, variance, points, now, random, k)
    ensures forall k :: 0 <= k < |data| ==> 0.0 <= data[k].value <= 100.0
    ensures |data| > 0 ==> data[|data| - 1].time == now
    ensures forall k :: 0 < k < |data| ==> data[k].time == data[k - 1].time + Interval
  {
    data := [];
    var i := points - 1;
    while i >= 0
      invariant points > 0 ==> -1 <= i <= points - 1 && |data| == points - 1 - i
      invariant points <= 0 ==> data == []
      invariant forall k :: 0 <= k < |data| ==> data[k] == GeneratedPoint(baseValue, variance, points, now, random, k)
      decreases i
    {
      var value := baseValue + (random(|data|) - 0.5) * variance;
      data := data + [Point(now - i * Interval, Clamp(value))];
      i := i - 1;
    }
  }

  /**
    The water history's start value: twenty points at level 2. The page reads
    the clock once per point, so `clock(k)` is the instant read for point `k`,
    and point `k` is stamped `19 - k` five-minute steps before it.
   */
  function InitialWaterHistory(clock: nat -> int): (h: seq<Point>)
    ensures |h| == HistoryLength
    ensures forall k :: 0 <= k < |h| ==> h[k] == Point(clock(k) - (HistoryLength - 1 - k) * Interval, 2.0)
    ensures forall k :: 0 < k < |h| && clock(k - 1) <= clock(k) ==> h[k].time >= h[k - 1].time + Interval
    ensures h[|h| - 1].time == clock(HistoryLength - 1)
  {
    seq(HistoryLength, k requires 0 <= k => Point(clock(k) - (HistoryLength - 1 - k) * Interval, 2.0))
  }

  /**
    `prev => [...prev.slice(1), next]`: drop the oldest entry and append the
    newest. On an empty window `slice(1)` is empty, so the result is `[next]`.
   */
  function Shift<T>(h: seq<T>, next: T): (r: seq<T>)
    ensures |r| == if |h| == 0 then 1 else |h|
    ensures r[|r| - 1] == next
    ensures forall i :: 0 <= i < |r| - 1 ==> r[i] == h[i + 1]
  {
    (if |h| == 0 then [] else h[1..]) + [next]
  }

  /** The window after sliding in each of `xs`, in order. */
  function ShiftAll<T>(h: seq<T>, xs: seq<T>): seq<T>
    decreases |xs|
  {
    if |xs| == 0 then h else ShiftAll(Shift(h, xs[0]), xs[1..])
  }

  /** A non-empty window is always the last `|h|` entries of everything it has seen. */
  lemma {:induction false} ShiftAllIsSuffix<T>(h: seq<T>, xs: seq<T>)
    requires |h| > 0
    ensures ShiftAll(h, xs) == (h + xs)[|xs|..]
    decreases |xs|
  {
    if |xs| == 0 {
      assert h + xs == h;
    } else {
      var h' := Shift(h, xs[0]);
      ShiftAllIsSuffix(h', xs[1..]);
      assert h' + xs[1..] == (h + xs)[1..];
    }
  }

  /** Sliding keeps a non-empty window's length, however many readings arrive. */
  lemma {:induction false} ShiftAllKeepsLength<T>(h: seq<T>, xs: seq<T>)
    requires |h| > 0
    ensures |ShiftAll(h, xs)| == |h|
  {
    ShiftAllIsSuffix(h, xs);
  }

  /** Once at least as many readings as the window holds have arrived, it holds exactly the latest ones. */
  lemma {:induction false} ShiftAllKeepsLatest<T>(h: seq<T>, xs: seq<T>)
    requires 0 < |h| <= |xs|
    ensures ShiftAll(h, xs) == xs[|xs| - |h|..]
  {
    ShiftAllIsSuffix(h, xs);
    assert (h + xs)[|xs|..] == xs[|xs| - |h|..];
  }

  /** The `sensors` object of a message. */
  datatype Sensors = Sensors(temp1: real, temp2: real, waterLevel: real)

  /** A parsed WebSocket message: its `type` tag and its `sensors` payload. */
  datatype Incoming = Incoming(kind: string, sensors: Sensors)

  /** The page's state: current readings and their history windows. */
  datatype View = View(
    temp1: real, temp2: real, waterLevel: real,
    temp1History: seq<Point>, temp2History: seq<Point>, waterHistory: seq<Point>)

  /** Every history window has its starting length. */
  predicate WellFormed(v: View)
  {
    |v.temp1History| == HistoryLength && |v.temp2History| == HistoryLength && |v.waterHistory| == HistoryLength
  }

  /** Each current reading is the newest point of its history. */
  predicate CurrentIsNewest(v: View)
  {
    && |v.temp1History| > 0 && v.temp1History[|v.temp1History| - 1].value == v.temp1
    && |v.temp2History| > 0 && v.temp2History[|v.temp2History| - 1].value == v.temp2
    && |v.waterHistory| > 0 && v.waterHistory[|v.waterHistory| - 1].value == v.waterLevel
  }

  /**
    `ws.onmessage`: a `sensorUpdate` sets each current reading from the
    message and slides it into its history, stamped `now`; any other message
    changes nothing.
   */
  function OnMessage(v: View, msg: Incoming, now: int): (r: View)
    ensures msg.kind != SensorUpdate ==> r == v
    ensures msg.kind == SensorUpdate ==>
      && r.temp1 == msg.sensors.temp1 && r.temp2 == msg.sensors.temp2 && r.waterLevel == msg.sensors.waterLevel
      && CurrentIsNewest(r)
      && r.temp1History[|r.temp1History| - 1] == Point(now, msg.sensors.temp1)
      && r.temp2History[|r.temp2History| - 1] == Point(now, msg.sensors.temp2)
      && r.waterHistory[|r.waterHistory| - 1] == Point(now, msg.sensors.waterLevel)
    ensures msg.kind == SensorUpdate ==>
      && r.temp1History[..|r.temp1History| - 1] == (if |v.temp1History| == 0 then [] else v.temp1History[1..])
      && r.temp2History[..|r.temp2History| - 1] == (if |v.temp2History| == 0 then [] else v.temp2History[1..])
      && r.waterHistory[..|r.waterHistory| - 1] == (if |v.waterHistory| == 0 then [] else v.waterHistory[1..])
    ensures WellFormed(v) ==> WellFormed(r)
  {
    if msg.kind == SensorUpdate then
      var s := msg.sensors;
      View(s.temp1, s.temp2, s.waterLevel,
           Shift(v.temp1History, Point(now, s.temp1)),
           Shift(v.temp2History, Point(now, s.temp2)),
           Shift(v.waterHistory, Point(now, s.waterLevel)))
    else
      v
  }

  /** A message as the page receives it: its content and the instant it arrived. */
  datatype Arrival = Arrival(msg: Incoming, now: int)

  function OnMessages(v: View, arrivals: seq<Arrival>): View
    decreases |arrivals|
  {
    if |arrivals| == 0 then v else OnMessages(OnMessage(v, arrivals[0].msg, arrivals[0].now), arrivals[1..])
  }

  /** The three windows keep twenty entries under any run of messages. */
  lemma {:induction false} MessagesKeepWellFormed(v: View, arrivals: seq<Arrival>)
    requires WellFormed(v)
    ensures WellFormed(OnMessages(v, arrivals))
    decreases |arrivals|
  {
    if |arrivals| > 0 {
      MessagesKeepWellFormed(OnMessage(v, arrivals[0].msg, arrivals[0].now), arrivals[1..]);
    }
  }

  /** Every message the serial bridge sends is a `lampUpdate`, which the page ignores. */
  lemma BridgeMessagesIgnored(v: View, m: UartServer.Message, sensors: Sensors, now: int)
    ensures OnMessage(v, Incoming(UartServer.MessageType(m), sensors), now) == v
  {
  }

  /**
    The page's start state: readings 22.5, 35.3 and 2; temperature histories
    generated around those readings (variance 5 and 8), the water history at
    level 2. All three windows hold twenty points. Each generator call reads
    the clock once (`now1`, `now2`); the water history reads it per point.
   */
  method InitialView(now1: int, now2: int, clock: nat -> int, random1: nat -> real, random2: nat -> real)
    returns (v: View)
    ensures WellFormed(v)
    ensures v.temp1 == 22.5 && v.temp2 == 35.3 && v.waterLevel == 2.0
    ensures forall k :: 0 <= k < HistoryLength ==> 0.0 <= v.temp1History[k].value <= 100.0
    ensures forall k :: 0 <= k < HistoryLength ==> 0.0 <= v.temp2History[k].value <= 100.0
    ensures forall k :: 0 <= k < HistoryLength ==> v.waterHistory[k].value == 2.0
    ensures v.temp1History[HistoryLength - 1].time == now1 && v.temp2History[HistoryLength - 1].time == now2
    ensures forall k :: 0 <= k < HistoryLength ==> v.temp1History[k] == GeneratedPoint(22.5, 5.0, DefaultPoints, now1, random1, k)
    ensures forall k :: 0 <= k < HistoryLength ==> v.temp2History[k] == GeneratedPoint(35.3, 8.0, DefaultPoints, now2, random2, k)
  {
    var h1 := GenerateHistoricalData(22.5, 5.0, DefaultPoints, now1, random1);
    var h2 := GenerateHistoricalData(35.3, 8.0, DefaultPoints, now2, random2);
    v := View(22.5, 35.3, 2.0, h1, h2, InitialWaterHistory(clock));
  }
}
