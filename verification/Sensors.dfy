/** The sensor reader of sensor_reader.py: wiring tables, debounce and edge detection. */
module Sensors {
  import opened Basics

  // ------------------------------------------------------------------ wiring tables

  const GPIO_TO_BARRIER: map<int, Barrier> := map[
    17 := StationEntry(1), 27 := StationProcess(1), 22 := StationExit(1),
    5 := StationEntry(2), 6 := StationProcess(2), 13 := StationExit(2),
    21 := CornerPos(1), 12 := CornerPos(3)]

  const BARRIER_TO_PLACE: map<Barrier, Place> := map[
    StationEntry(1) := AtStation(1), StationProcess(1) := AtStation(1), StationExit(1) := AtStation(1),
    StationEntry(2) := AtStation(2), StationProcess(2) := AtStation(2), StationExit(2) := AtStation(2),
    CornerPos(1) := AtCorner(1), CornerPos(2) := AtCorner(2),
    CornerPos(3) := AtCorner(3), CornerPos(4) := AtCorner(4)]

  /** The expander inputs in the order in which they are polled. */
  function McpName(i: nat): Barrier
    requires i < 10
  {
    if i < 4 then CornerRet(i + 1) else if i < 6 then ConveyorStart(i - 3) else CornerExt(i - 5)
  }

  const MCP_BARRIER_TO_PLACE: map<Barrier, Place> := map[
    CornerRet(1) := AtCorner(1), CornerRet(2) := AtCorner(2), CornerRet(3) := AtCorner(3), CornerRet(4) := AtCorner(4),
    CornerExt(1) := AtCorner(1), CornerExt(2) := AtCorner(2), CornerExt(3) := AtCorner(3), CornerExt(4) := AtCorner(4),
    ConveyorStart(1) := AtConveyor(1), ConveyorStart(2) := AtConveyor(2)]

  function Lookup(table: map<Barrier, Place>, barrier: Barrier): Place {
    if barrier in table then table[barrier] else Nowhere
  }

  /** An event as the tables produce it: its place is the one wired to its barrier. */
  predicate Wired(e: SensorEvent) {
    (e.barrier in BARRIER_TO_PLACE && e.place == BARRIER_TO_PLACE[e.barrier])
    || (e.barrier in MCP_BARRIER_TO_PLACE && e.place == MCP_BARRIER_TO_PLACE[e.barrier])
  }

  /** All events of one pin: station exits are also corner arrivals. */
  function PinEvents(pin: int, t: real): (r: seq<SensorEvent>)
    ensures forall e :: e in r ==> Wired(e) && e.stamp == t
    ensures |r| == if pin == 22 || pin == 13 then 2 else if pin in GPIO_TO_BARRIER then 1 else 0
  {
    var primary :=
      if pin in GPIO_TO_BARRIER then
        [SensorEvent(t, GPIO_TO_BARRIER[pin], Lookup(BARRIER_TO_PLACE, GPIO_TO_BARRIER[pin]))]
      else [];
    var second :=
      if pin == 22 then [SensorEvent(t, CornerPos(4), AtCorner(4))]
      else if pin == 13 then [SensorEvent(t, CornerPos(2), AtCorner(2))]
      else [];
    primary + second
  }

  lemma OtherPins(t: real)
    ensures forall pin :: pin !in {17, 27, 22, 5, 6, 13, 21, 12} ==> PinEvents(pin, t) == []
  {
  }

  lemma Station1Pins(t: real)
    ensures PinEvents(17, t) == [SensorEvent(t, StationEntry(1), AtStation(1))]
    ensures PinEvents(27, t) == [SensorEvent(t, StationProcess(1), AtStation(1))]
    ensures PinEvents(22, t) == [SensorEvent(t, StationExit(1), AtStation(1)), SensorEvent(t, CornerPos(4), AtCorner(4))]
  {
  }

  lemma Station2Pins(t: real)
    ensures PinEvents(5, t) == [SensorEvent(t, StationEntry(2), AtStation(2))]
    ensures PinEvents(6, t) == [SensorEvent(t, StationProcess(2), AtStation(2))]
    ensures PinEvents(13, t) == [SensorEvent(t, StationExit(2), AtStation(2)), SensorEvent(t, CornerPos(2), AtCorner(2))]
  {
  }

  lemma CornerPins(t: real)
    ensures PinEvents(21, t) == [SensorEvent(t, CornerPos(1), AtCorner(1))]
    ensures PinEvents(12, t) == [SensorEvent(t, CornerPos(3), AtCorner(3))]
  {
  }

  /** The eight wired pins, one by one; exits at the stations are arrivals at corners 4 and 2. */
  lemma PinTable(t: real)
    ensures PinEvents(17, t) == [SensorEvent(t, StationEntry(1), AtStation(1))]
    ensures PinEvents(27, t) == [SensorEvent(t, StationProcess(1), AtStation(1))]
    ensures PinEvents(22, t) == [SensorEvent(t, StationExit(1), AtStation(1)), SensorEvent(t, CornerPos(4), AtCorner(4))]
    ensures PinEvents(5, t) == [SensorEvent(t, StationEntry(2), AtStation(2))]
    ensures PinEvents(6, t) == [SensorEvent(t, StationProcess(2), AtStation(2))]
    ensures PinEvents(13, t) == [SensorEvent(t, StationExit(2), AtStation(2)), SensorEvent(t, CornerPos(2), AtCorner(2))]
    ensures PinEvents(21, t) == [SensorEvent(t, CornerPos(1), AtCorner(1))]
    ensures PinEvents(12, t) == [SensorEvent(t, CornerPos(3), AtCorner(3))]
    ensures forall pin :: pin !in {17, 27, 22, 5, 6, 13, 21, 12} ==> PinEvents(pin, t) == []
  {
    Station1Pins(t);
    Station2Pins(t);
    CornerPins(t);
    OtherPins(t);
    hide PinEvents;
  }

  /** Every event that the tables place goes to the station, corner or conveyor in its name. */
  lemma WiredPlaces(e: SensorEvent)
    ensures Wired(e) <==>
            match e.barrier
            case StationEntry(n) => 1 <= n <= 2 && e.place == AtStation(n)
            case StationProcess(n) => 1 <= n <= 2 && e.place == AtStation(n)
            case StationExit(n) => 1 <= n <= 2 && e.place == AtStation(n)
            case CornerPos(c) => 1 <= c <= 4 && e.place == AtCorner(c)
            case CornerExt(c) => 1 <= c <= 4 && e.place == AtCorner(c)
            case CornerRet(c) => 1 <= c <= 4 && e.place == AtCorner(c)
            case ConveyorStart(n) => 1 <= n <= 2 && e.place == AtConveyor(n)
  {
  }

  // ----------------------------------------------------------------------- debounce

  const DEBOUNCE := 0.05

  datatype Trigger = Trigger(pin: int, time: real)

  function LastTrigger(last: map<int, real>, pin: int): real {
    if pin in last then last[pin] else 0.0
  }

  predicate Accepts(last: map<int, real>, g: Trigger) {
    g.time - LastTrigger(last, g.pin) >= DEBOUNCE
  }

  /** Non-blocking puts: what does not fit is dropped. */
  function PutAll<T>(queue: seq<T>, events: seq<T>, capacity: nat): seq<T> {
    if events == [] then queue
    else
      var before := PutAll(queue, Front(events), capacity);
      if |before| < capacity then before + [Last(events)] else before
  }

  lemma PutAllAppend<T>(queue: seq<T>, events: seq<T>, x: T, capacity: nat)
    ensures var before := PutAll(queue, events, capacity);
            PutAll(queue, events + [x], capacity) == if |before| < capacity then before + [x] else before
  {
    AppendFront(events, x);
  }

  datatype Reader = Reader(last: map<int, real>, queue: seq<SensorEvent>)

  function OnTrigger(r: Reader, g: Trigger, capacity: nat): Reader {
    if Accepts(r.last, g) then Reader(r.last[g.pin := g.time], PutAll(r.queue, PinEvents(g.pin, g.time), capacity))
    else r
  }

  function RunReader(triggers: seq<Trigger>, capacity: nat): Reader {
    if triggers == [] then Reader(map[], []) else OnTrigger(RunReader(Front(triggers), capacity), Last(triggers), capacity)
  }

  /** The accepted triggers of a run, in order. */
  function Accepted(triggers: seq<Trigger>): seq<Trigger> {
    if triggers == [] then []
    else if Accepts(RunReader(Front(triggers), 0).last, Last(triggers)) then Accepted(Front(triggers)) + [Last(triggers)]
    else Accepted(Front(triggers))
  }

  function TimesOn(triggers: seq<Trigger>, pin: int): seq<real> {
    if triggers == [] then []
    else if Last(triggers).pin == pin then TimesOn(Front(triggers), pin) + [Last(triggers).time]
    else TimesOn(Front(triggers), pin)
  }

  function EventsOf(triggers: seq<Trigger>): seq<SensorEvent> {
    if triggers == [] then [] else EventsOf(Front(triggers)) + PinEvents(Last(triggers).pin, Last(triggers).time)
  }

  lemma {:induction false} DebounceIgnoresQueue(triggers: seq<Trigger>, a: nat, b: nat)
    ensures RunReader(triggers, a).last == RunReader(triggers, b).last
  {
    if triggers != [] {
      DebounceIgnoresQueue(Front(triggers), a, b);
    }
  }

  ghost predicate DebouncedUpTo(times: seq<real>, last: real) {
    && Spaced(times, 0.05)
    && (forall i :: 0 <= i < |times| ==> 0.05 <= times[i] <= last)
  }

  lemma NothingDebounced()
    ensures DebouncedUpTo([], 0.0)
  {
  }

  lemma DebouncedGrows(times: seq<real>, last: real, time: real)
    requires DebouncedUpTo(times, last) && last >= 0.0 && time - last >= 0.05
    ensures DebouncedUpTo(times + [time], time)
  {
  }

  /** Whatever the clock does, accepted triggers of one pin are increasing and a debounce apart. */
  lemma {:induction false} AcceptedAreDebounced(triggers: seq<Trigger>, pin: int)
    ensures DebouncedUpTo(TimesOn(Accepted(triggers), pin), LastTrigger(RunReader(triggers, 0).last, pin))
    ensures LastTrigger(RunReader(triggers, 0).last, pin) >= 0.0
  {
    hide DebouncedUpTo, PutAll, PinEvents;
    if triggers == [] {
      NothingDebounced();
    } else {
      var front, g := Front(triggers), Last(triggers);
      var last := RunReader(front, 0).last;
      AcceptedAreDebounced(front, pin);
      if Accepts(last, g) {
        AppendFront(Accepted(front), g);
        if g.pin == pin {
          DebouncedGrows(TimesOn(Accepted(front), pin), LastTrigger(last, pin), g.time);
        }
      }
    }
  }

  /** The last of these times, or the beginning of the clock. */
  function LatestTime(times: seq<real>): real {
    if times == [] then 0.0 else Last(times)
  }

  lemma {:induction false} RememberedIsLatest(triggers: seq<Trigger>, pin: int)
    ensures LastTrigger(RunReader(triggers, 0).last, pin) == LatestTime(TimesOn(Accepted(triggers), pin))
  {
    if triggers != [] {
      RememberedIsLatest(Front(triggers), pin);
      AppendFront(Accepted(Front(triggers)), Last(triggers));
    }
  }

  /** A trigger is accepted if and only if it comes at least 0.05 s after the last accepted one of its pin. */
  lemma AcceptedExactly(triggers: seq<Trigger>, g: Trigger)
    ensures Accepted(triggers + [g])
            == Accepted(triggers) + if g.time - LatestTime(TimesOn(Accepted(triggers), g.pin)) >= 0.05 then [g] else []
  {
    AppendFront(triggers, g);
    RememberedIsLatest(triggers, g.pin);
  }

  lemma {:induction false} PutAllFits<T>(queue: seq<T>, events: seq<T>, capacity: nat)
    requires |queue| + |events| <= capacity
    ensures PutAll(queue, events, capacity) == queue + events
  {
    if events != [] {
      PutAllFits(queue, Front(events), capacity);
      assert events == Front(events) + [Last(events)];
    }
  }

  lemma {:induction false} PutAllKeepsBound<T>(queue: seq<T>, events: seq<T>, capacity: nat)
    requires |queue| <= capacity
    ensures |PutAll(queue, events, capacity)| <= capacity
  {
    if events != [] {
      PutAllKeepsBound(queue, Front(events), capacity);
    }
  }

  lemma {:induction false} ReaderKeepsBound(triggers: seq<Trigger>, capacity: nat)
    ensures |RunReader(triggers, capacity).queue| <= capacity
  {
    if triggers != [] {
      var r, g := RunReader(Front(triggers), capacity), Last(triggers);
      ReaderKeepsBound(Front(triggers), capacity);
      PutAllKeepsBound(r.queue, PinEvents(g.pin, g.time), capacity);
    }
  }

  /** A queue that nobody empties holds exactly the events of the accepted triggers, in order, if and
      only if it has room for all of them. */
  lemma {:induction false} QueueHoldsAccepted(triggers: seq<Trigger>, capacity: nat)
    ensures RunReader(triggers, capacity).queue == EventsOf(Accepted(triggers))
            <==> |EventsOf(Accepted(triggers))| <= capacity
  {
    ReaderKeepsBound(triggers, capacity);
    if triggers != [] && |EventsOf(Accepted(triggers))| <= capacity {
      var front, g := Front(triggers), Last(triggers);
      DebounceIgnoresQueue(front, 0, capacity);
      AppendFront(Accepted(front), g);
      QueueHoldsAccepted(front, capacity);
      if Accepts(RunReader(front, 0).last, g) {
        PutAllFits(EventsOf(Accepted(front)), PinEvents(g.pin, g.time), capacity);
      }
    }
  }

  // ------------------------------------------------------------------ edge detection

  datatype Sample = Sample(level: bool, stamp: real)

  const LOW := Sample(false, 0.0)

  /** One reading of all expander inputs, in polling order. */
  type Poll = s: seq<Sample> | |s| == 10
    witness [LOW, LOW, LOW, LOW, LOW, LOW, LOW, LOW, LOW, LOW]

  /** The input was read before and was low then. */
  predicate WasLow(prev: Option<Poll>, i: nat)
    requires i < 10
  {
    prev.Some? && !prev.value[i].level
  }

  function McpEvent(i: nat, stamp: real): SensorEvent
    requires i < 10
  {
    SensorEvent(stamp, McpName(i), Lookup(MCP_BARRIER_TO_PLACE, McpName(i)))
  }

  /** The ten expander inputs: retracted switches, conveyor starts, extended switches. */
  lemma McpTable(i: nat, stamp: real)
    requires i < 10
    ensures McpEvent(i, stamp)
            == if i < 4 then SensorEvent(stamp, CornerRet(i + 1), AtCorner(i + 1))
               else if i < 6 then SensorEvent(stamp, ConveyorStart(i - 3), AtConveyor(i - 3))
               else SensorEvent(stamp, CornerExt(i - 5), AtCorner(i - 5))
  {
  }

  /** The events of the first `k` inputs: low in the previous poll, high in this one. */
  function Edges(prev: Option<Poll>, poll: Poll, k: nat): (r: seq<SensorEvent>)
    requires k <= 10
    ensures forall e :: e in r ==> Wired(e)
  {
    if k == 0 then []
    else if WasLow(prev, k - 1) && poll[k - 1].level then
      Edges(prev, poll, k - 1) + [McpEvent(k - 1, poll[k - 1].stamp)]
    else Edges(prev, poll, k - 1)
  }

  lemma EdgesNext(prev: Option<Poll>, poll: Poll, k: nat)
    requires k < 10
    ensures Edges(prev, poll, k + 1)
            == Edges(prev, poll, k) + if WasLow(prev, k) && poll[k].level then [McpEvent(k, poll[k].stamp)] else []
  {
  }

  function Latest(polls: seq<Poll>): Option<Poll> {
    if polls == [] then None else Some(Last(polls))
  }

  /** All events of a series of polls. */
  function PolledEvents(polls: seq<Poll>): seq<SensorEvent> {
    if polls == [] then [] else PolledEvents(Front(polls)) + Edges(Latest(Front(polls)), Last(polls), 10)
  }

  /** The moments at which input `i` goes from low to high between consecutive polls. */
  function RisingStamps(polls: seq<Poll>, i: nat): seq<real>
    requires i < 10
  {
    if |polls| < 2 then []
    else if !polls[|polls| - 2][i].level && Last(polls)[i].level then
      RisingStamps(Front(polls), i) + [Last(polls)[i].stamp]
    else RisingStamps(Front(polls), i)
  }

  function StampsOf(events: seq<SensorEvent>, barrier: Barrier): seq<real> {
    if events == [] then []
    else if Last(events).barrier == barrier then StampsOf(Front(events), barrier) + [Last(events).stamp]
    else StampsOf(Front(events), barrier)
  }

  lemma {:induction false} StampsConcat(a: seq<SensorEvent>, b: seq<SensorEvent>, barrier: Barrier)
    ensures StampsOf(a + b, barrier) == StampsOf(a, barrier) + StampsOf(b, barrier)
  {
    if b == [] {
      assert a + b == a;
    } else {
      StampsConcat(a, Front(b), barrier);
      assert Front(a + b) == a + Front(b) && Last(a + b) == Last(b);
    }
  }

  lemma {:induction false} EdgesOfInput(prev: Option<Poll>, poll: Poll, k: nat, i: nat)
    requires k <= 10 && i < 10
    ensures StampsOf(Edges(prev, poll, k), McpName(i))
            == if i < k && WasLow(prev, i) && poll[i].level then [poll[i].stamp] else []
  {
    if k > 0 {
      EdgesOfInput(prev, poll, k - 1, i);
      AppendFront(Edges(prev, poll, k - 1), McpEvent(k - 1, poll[k - 1].stamp));
      assert McpName(k - 1) == McpName(i) <==> k - 1 == i;
    }
  }

  /** Every input reports exactly its rising edges, once each and in order; the first poll only
      sets the reference level. */
  lemma {:induction false} PollingReportsRisingEdges(polls: seq<Poll>, i: nat)
    requires i < 10
    ensures StampsOf(PolledEvents(polls), McpName(i)) == RisingStamps(polls, i)
  {
    if polls != [] {
      var front, poll := Front(polls), Last(polls);
      PollingReportsRisingEdges(front, i);
      EdgesOfInput(Latest(front), poll, 10, i);
      StampsConcat(PolledEvents(front), Edges(Latest(front), poll, 10), McpName(i));
      if front != [] {
        assert Last(front) == polls[|polls| - 2];
      }
    }
  }
}
