/** From the sensors to the state machines: what the bounded queues lose, exactly when they do, and
    what the wired system conserves of everything its sensors and readers report. */
module Arrivals {
  import opened Basics
  import opened Fusion
  import opened CepRuns
  import opened Sensors
  import opened System

  // --------------------------------------------------------------- what is reported

  /** The interrupts of a run. */
  function Interrupts(steps: seq<SysStep>): seq<Trigger> {
    if steps == [] then []
    else Interrupts(Front(steps)) + match Last(steps) { case Interrupt(g) => [g] case _ => [] }
  }

  /** The polls of a run. */
  function Polls(steps: seq<SysStep>): seq<Poll> {
    if steps == [] then []
    else Polls(Front(steps)) + match Last(steps) { case Polling(poll) => [poll] case _ => [] }
  }

  /** The reads of a run that name a part. */
  function NamedScans(steps: seq<SysStep>): seq<NfcEvent> {
    if steps == [] then [] else NamedScans(Front(steps)) + NamedScan(Last(steps))
  }

  function NamedScan(step: SysStep): seq<NfcEvent> {
    match step
    case Scan(station, part, time) => if part == "" then [] else [NfcEvent(time, station, part)]
    case _ => []
  }

  /** The events that the accepted interrupts of a run stand for. */
  function PinReports(steps: seq<SysStep>): seq<SensorEvent> {
    EventsOf(Accepted(Interrupts(steps)))
  }

  // ------------------------------------------------------- what the consumer takes

  function GpioOf(inputs: seq<Input>): seq<SensorEvent> {
    if inputs == [] then [] else GpioOf(Front(inputs)) + Last(inputs).gpio
  }

  function McpOf(inputs: seq<Input>): seq<SensorEvent> {
    if inputs == [] then [] else McpOf(Front(inputs)) + Last(inputs).mcp
  }

  // ------------------------------------------------------------------- one queue

  predicate HasRoom<T>(queue: seq<T>, events: seq<T>, capacity: nat) {
    |queue| + |events| <= capacity
  }

  /** What was taken from a queue and is still in it is what arrived if there was always room, and
      strictly less otherwise. */
  ghost predicate Channel<T>(taken: seq<T>, queue: seq<T>, arrived: seq<T>, capacity: nat, room: bool) {
    && |queue| <= capacity
    && multiset(taken + queue) <= multiset(arrived)
    && (room ==> taken + queue == arrived)
    && (!room ==> |taken + queue| < |arrived|)
  }

  lemma {:induction false} PutAllTakesAtMost<T>(queue: seq<T>, events: seq<T>, capacity: nat)
    requires |queue| <= capacity
    ensures multiset(PutAll(queue, events, capacity)) <= multiset(queue + events)
    ensures |PutAll(queue, events, capacity)| == |queue| + |events| <==> HasRoom(queue, events, capacity)
  {
    PutAllKeepsBound(queue, events, capacity);
    if events == [] {
      assert queue + events == queue;
    } else {
      PutAllTakesAtMost(queue, Front(events), capacity);
      PutAllKeepsBound(queue, Front(events), capacity);
      PutAllLength(queue, Front(events), capacity);
      assert queue + events == (queue + Front(events)) + [Last(events)];
    }
  }

  lemma {:induction false} PutAllLength<T>(queue: seq<T>, events: seq<T>, capacity: nat)
    ensures |PutAll(queue, events, capacity)| <= |queue| + |events|
  {
    if events != [] {
      PutAllLength(queue, Front(events), capacity);
    }
  }

  lemma ConcatAtMost<T>(taken: seq<T>, queue: seq<T>, queue': seq<T>, arrived: seq<T>, events: seq<T>)
    requires multiset(taken + queue) <= multiset(arrived) && multiset(queue') <= multiset(queue + events)
    ensures multiset(taken + queue') <= multiset(arrived + events)
  {
    forall x
      ensures multiset(taken + queue')[x] <= multiset(arrived + events)[x]
    {
      assert multiset(queue')[x] <= multiset(queue + events)[x];
      assert multiset(taken + queue)[x] <= multiset(arrived)[x];
    }
  }

  lemma PutKeepsChannel<T>(taken: seq<T>, queue: seq<T>, arrived: seq<T>, events: seq<T>, capacity: nat, room: bool)
    requires Channel(taken, queue, arrived, capacity, room)
    ensures Channel(taken, PutAll(queue, events, capacity), arrived + events, capacity,
                    room && HasRoom(queue, events, capacity))
  {
    hide PutAll;
    PutAllKeepsBound(queue, events, capacity);
    PutAllTakesAtMost(queue, events, capacity);
    PutAllLength(queue, events, capacity);
    ConcatAtMost(taken, queue, PutAll(queue, events, capacity), arrived, events);
    if HasRoom(queue, events, capacity) {
      PutAllFits(queue, events, capacity);
      assert taken + (queue + events) == (taken + queue) + events;
    }
  }

  lemma TakeKeepsChannel<T>(taken: seq<T>, queue: seq<T>, arrived: seq<T>, capacity: nat, room: bool)
    requires Channel(taken, queue, arrived, capacity, room)
    ensures Channel(taken + queue, [], arrived, capacity, room) && |queue| <= capacity
  {
    assert (taken + queue) + [] == taken + queue;
  }

  /** So nothing is lost if and only if there was always room. */
  lemma ChannelIsExact<T>(taken: seq<T>, queue: seq<T>, arrived: seq<T>, capacity: nat, room: bool)
    requires Channel(taken, queue, arrived, capacity, room)
    ensures taken + queue == arrived <==> room
    ensures multiset(taken + queue) == multiset(arrived) <==> room
  {
    if !room {
      assert |multiset(taken + queue)| < |multiset(arrived)|;
    }
  }

  // -------------------------------------------------------- room in the three queues

  /** What an accepted interrupt reports. */
  function Pinned(s: Sys, step: SysStep): seq<SensorEvent> {
    match step
    case Interrupt(g) => if Accepts(s.reader.last, g) then PinEvents(g.pin, g.time) else []
    case _ => []
  }

  /** What a poll reports. */
  function Risen(s: Sys, step: SysStep): seq<SensorEvent> {
    match step
    case Polling(poll) => Edges(s.previous, poll, 10)
    case _ => []
  }

  /** Every accepted interrupt of the run finds room for its events. */
  ghost predicate GpioRoom(cfg: Config, w: Windows, steps: seq<SysStep>) {
    steps == []
    || (var s := RunSys(cfg, w, Front(steps));
        GpioRoom(cfg, w, Front(steps)) && HasRoom(s.reader.queue, Pinned(s, Last(steps)), 100))
  }

  /** Every poll of the run finds room for its rising edges. */
  ghost predicate McpRoom(cfg: Config, w: Windows, steps: seq<SysStep>) {
    steps == []
    || (var s := RunSys(cfg, w, Front(steps));
        McpRoom(cfg, w, Front(steps)) && HasRoom(s.mcpQueue, Risen(s, Last(steps)), 100))
  }

  /** Every read of the run that names a part finds room. */
  ghost predicate NfcRoom(cfg: Config, w: Windows, steps: seq<SysStep>) {
    steps == []
    || (var s := RunSys(cfg, w, Front(steps));
        NfcRoom(cfg, w, Front(steps)) && HasRoom(s.nfcQueue, NamedScan(Last(steps)), 20))
  }

  // --------------------------------------------------------- the queues of the system

  lemma NextRemembers(cfg: Config, w: Windows, s: Sys, step: SysStep)
    ensures var s' := Next(cfg, w, s, step);
            && s'.reader.last == (if step.Interrupt? && Accepts(s.reader.last, step.trigger)
                                  then s.reader.last[step.trigger.pin := step.trigger.time] else s.reader.last)
            && s'.previous == if step.Polling? then Some(step.poll) else s.previous
  {
  }

  lemma ReaderAppend(triggers: seq<Trigger>, g: Trigger)
    ensures var r := RunReader(triggers, 0);
            RunReader(triggers + [g], 0).last == if Accepts(r.last, g) then r.last[g.pin := g.time] else r.last
  {
    AppendFront(triggers, g);
  }

  lemma {:induction false} ReaderRemembers(cfg: Config, w: Windows, steps: seq<SysStep>)
    ensures RunSys(cfg, w, steps).reader.last == RunReader(Interrupts(steps), 0).last
    ensures RunSys(cfg, w, steps).previous == Latest(Polls(steps))
  {
    if steps != [] {
      hide Next, Accepts, RunReader;
      var front, step := Front(steps), Last(steps);
      ReaderRemembers(cfg, w, front);
      NextRemembers(cfg, w, RunSys(cfg, w, front), step);
      assert Interrupts(front) + [] == Interrupts(front) && Polls(front) + [] == Polls(front);
      match step
      case Interrupt(g) => ReaderAppend(Interrupts(front), g);
      case Polling(poll) => AppendFront(Polls(front), poll);
      case _ =>
    }
  }

  /** What one step adds to the reports. */
  lemma ReportsGrow(cfg: Config, w: Windows, front: seq<SysStep>, step: SysStep)
    ensures var s := RunSys(cfg, w, front);
            && PinReports(front + [step]) == PinReports(front) + Pinned(s, step)
            && PolledEvents(Polls(front + [step])) == PolledEvents(Polls(front)) + Risen(s, step)
            && NamedScans(front + [step]) == NamedScans(front) + NamedScan(step)
  {
    AppendFront(front, step);
    ReaderRemembers(cfg, w, front);
    assert Interrupts(front) + [] == Interrupts(front) && Polls(front) + [] == Polls(front);
    match step
    case Interrupt(g) =>
      AppendFront(Interrupts(front), g);
      AppendFront(Accepted(Interrupts(front)), g);
    case Polling(poll) => AppendFront(Polls(front), poll);
    case _ =>
  }

  /** A turn takes all that is in the queues; no other step takes anything. */
  lemma InputsGrow(cfg: Config, w: Windows, front: seq<SysStep>, step: SysStep)
    ensures var s, before, after := RunSys(cfg, w, front), Inputs(cfg, w, front), Inputs(cfg, w, front + [step]);
            if step.Turn? && s.outbox == [] then
              && GpioOf(after) == GpioOf(before) + s.reader.queue && McpOf(after) == McpOf(before) + s.mcpQueue
              && ScannedIn(after) == ScannedIn(before) + s.nfcQueue
            else after == before
  {
    AppendFront(front, step);
    var s := RunSys(cfg, w, front);
    if step.Turn? {
      AppendFront(Inputs(cfg, w, front), Input(s.reader.queue, s.mcpQueue, s.nfcQueue, step.now));
    }
  }

  /** What one step does to the three queues. */
  lemma QueuesAfter(cfg: Config, w: Windows, s: Sys, step: SysStep)
    ensures var s' := Next(cfg, w, s, step);
            if step.Turn? && s.outbox == [] then s'.reader.queue == [] && s'.mcpQueue == [] && s'.nfcQueue == []
            else
              && s'.reader.queue == PutAll(s.reader.queue, Pinned(s, step), 100)
              && s'.mcpQueue == PutAll(s.mcpQueue, Risen(s, step), 100)
              && s'.nfcQueue == PutAll(s.nfcQueue, NamedScan(step), 20)
  {
  }

  /** The consumer begins a turn. */
  predicate Takes(s: Sys, step: SysStep) {
    step.Turn? && s.outbox == []
  }

  /** A queue is taken whole, or events are put into it. */
  ghost predicate Moves<T>(taken: seq<T>, taken': seq<T>, queue: seq<T>, queue': seq<T>, events: seq<T>,
                           capacity: nat, take: bool) {
    if take then taken' == taken + queue && queue' == [] && events == []
    else taken' == taken && queue' == PutAll(queue, events, capacity)
  }

  lemma ChannelStep<T>(taken: seq<T>, taken': seq<T>, queue: seq<T>, queue': seq<T>, arrived: seq<T>, arrived': seq<T>,
                       events: seq<T>, capacity: nat, room: bool, take: bool)
    requires Channel(taken, queue, arrived, capacity, room) && arrived' == arrived + events
    requires Moves(taken, taken', queue, queue', events, capacity, take)
    ensures Channel(taken', queue', arrived', capacity, room && HasRoom(queue, events, capacity))
  {
    if take {
      TakeKeepsChannel(taken, queue, arrived, capacity, room);
      assert arrived + [] == arrived;
    } else {
      PutKeepsChannel(taken, queue, arrived, events, capacity, room);
    }
  }

  /** What one step does to the reports, to what the consumer took and to the queues. */
  lemma StepMovesQueues(cfg: Config, w: Windows, front: seq<SysStep>, step: SysStep)
    ensures var s, s' := RunSys(cfg, w, front), RunSys(cfg, w, front + [step]);
            var before, after := Inputs(cfg, w, front), Inputs(cfg, w, front + [step]);
            && PinReports(front + [step]) == PinReports(front) + Pinned(s, step)
            && PolledEvents(Polls(front + [step])) == PolledEvents(Polls(front)) + Risen(s, step)
            && NamedScans(front + [step]) == NamedScans(front) + NamedScan(step)
            && Moves(GpioOf(before), GpioOf(after), s.reader.queue, s'.reader.queue, Pinned(s, step), 100,
                     Takes(s, step))
            && Moves(McpOf(before), McpOf(after), s.mcpQueue, s'.mcpQueue, Risen(s, step), 100, Takes(s, step))
            && Moves(ScannedIn(before), ScannedIn(after), s.nfcQueue, s'.nfcQueue, NamedScan(step), 20, Takes(s, step))
  {
    hide Next, PinReports, PolledEvents, NamedScans, GpioOf, McpOf, ScannedIn, PutAll;
    AppendFront(front, step);
    InputsGrow(cfg, w, front, step);
    ReportsGrow(cfg, w, front, step);
    QueuesAfter(cfg, w, RunSys(cfg, w, front), step);
  }

  lemma {:induction false} GpioChannel(cfg: Config, w: Windows, steps: seq<SysStep>)
    ensures Channel(GpioOf(Inputs(cfg, w, steps)), RunSys(cfg, w, steps).reader.queue, PinReports(steps),
                    100, GpioRoom(cfg, w, steps))
  {
    if steps == [] {
      assert PinReports(steps) == [] && GpioOf([]) == [];
    } else {
      hide Next, PinReports, Channel, GpioOf, HasRoom;
      var front, step, s := Front(steps), Last(steps), RunSys(cfg, w, Front(steps));
      GpioChannel(cfg, w, front);
      assert steps == front + [step];
      StepMovesQueues(cfg, w, front, step);
      ChannelStep(GpioOf(Inputs(cfg, w, front)), GpioOf(Inputs(cfg, w, steps)), s.reader.queue, RunSys(cfg, w, steps).reader.queue,
                  PinReports(front), PinReports(steps), Pinned(s, step), 100,
                  GpioRoom(cfg, w, front), Takes(s, step));
    }
  }

  lemma {:induction false} McpChannel(cfg: Config, w: Windows, steps: seq<SysStep>)
    ensures Channel(McpOf(Inputs(cfg, w, steps)), RunSys(cfg, w, steps).mcpQueue, PolledEvents(Polls(steps)),
                    100, McpRoom(cfg, w, steps))
  {
    if steps == [] {
      assert PolledEvents(Polls(steps)) == [] && McpOf([]) == [];
    } else {
      hide Next, PolledEvents, Channel, McpOf, HasRoom;
      var front, step, s := Front(steps), Last(steps), RunSys(cfg, w, Front(steps));
      McpChannel(cfg, w, front);
      assert steps == front + [step];
      StepMovesQueues(cfg, w, front, step);
      ChannelStep(McpOf(Inputs(cfg, w, front)), McpOf(Inputs(cfg, w, steps)), s.mcpQueue, RunSys(cfg, w, steps).mcpQueue,
                  PolledEvents(Polls(front)), PolledEvents(Polls(steps)), Risen(s, step), 100,
                  McpRoom(cfg, w, front), Takes(s, step));
    }
  }

  lemma {:induction false} NfcChannel(cfg: Config, w: Windows, steps: seq<SysStep>)
    ensures Channel(ScannedIn(Inputs(cfg, w, steps)), RunSys(cfg, w, steps).nfcQueue, NamedScans(steps),
                    20, NfcRoom(cfg, w, steps))
  {
    if steps == [] {
      assert NamedScans(steps) == [] && ScannedIn([]) == [];
    } else {
      hide Next, NamedScans, Channel, ScannedIn, HasRoom;
      var front, step, s := Front(steps), Last(steps), RunSys(cfg, w, Front(steps));
      NfcChannel(cfg, w, front);
      assert steps == front + [step];
      StepMovesQueues(cfg, w, front, step);
      ChannelStep(ScannedIn(Inputs(cfg, w, front)), ScannedIn(Inputs(cfg, w, steps)), s.nfcQueue, RunSys(cfg, w, steps).nfcQueue,
                  NamedScans(front), NamedScans(steps), NamedScan(step), 20,
                  NfcRoom(cfg, w, front), Takes(s, step));
    }
  }

  /** What the consumer took from the three queues, followed by what is still in them, is in order
      exactly what the accepted interrupts, the rising edges and the named reads of the run stand
      for, if and only if none of them ever found too little room. */
  lemma QueuesLoseNothingIffRoom(cfg: Config, w: Windows, steps: seq<SysStep>)
    ensures var s, inputs := RunSys(cfg, w, steps), Inputs(cfg, w, steps);
            && (GpioOf(inputs) + s.reader.queue == PinReports(steps) <==> GpioRoom(cfg, w, steps))
            && (McpOf(inputs) + s.mcpQueue == PolledEvents(Polls(steps)) <==> McpRoom(cfg, w, steps))
            && (ScannedIn(inputs) + s.nfcQueue == NamedScans(steps) <==> NfcRoom(cfg, w, steps))
  {
    hide Channel;
    var s, inputs := RunSys(cfg, w, steps), Inputs(cfg, w, steps);
    GpioChannel(cfg, w, steps);
    McpChannel(cfg, w, steps);
    NfcChannel(cfg, w, steps);
    ChannelIsExact(GpioOf(inputs), s.reader.queue, PinReports(steps), 100, GpioRoom(cfg, w, steps));
    ChannelIsExact(McpOf(inputs), s.mcpQueue, PolledEvents(Polls(steps)), 100, McpRoom(cfg, w, steps));
    ChannelIsExact(ScannedIn(inputs), s.nfcQueue, NamedScans(steps), 20, NfcRoom(cfg, w, steps));
  }

  // ------------------------------------------------ from the sensor to the state machine

  lemma {:induction false} SensedIsBoth(inputs: seq<Input>)
    ensures multiset(SensedIn(inputs)) == multiset(GpioOf(inputs)) + multiset(McpOf(inputs))
  {
    if inputs != [] {
      SensedIsBoth(Front(inputs));
    }
  }

  /** Where everything is that the sensors have reported: handed over or on its way, orphaned, pending,
      or still in a queue. */
  ghost function Accounted(cfg: Config, w: Windows, steps: seq<SysStep>): multiset<SensorEvent> {
    var s := RunSys(cfg, w, steps);
    var handed := HandedOver(Actions(cfg, w, steps)) + StillInside(s.outbox);
    multiset(Plain(handed)) + multiset(Entries(handed)) + multiset(TraceRun(w, Inputs(cfg, w, steps)).orphans)
    + multiset(s.cep.gpio) + multiset(s.reader.queue) + multiset(s.mcpQueue)
  }

  lemma AccountedIsTaken(cfg: Config, w: Windows, steps: seq<SysStep>)
    ensures var s, inputs := RunSys(cfg, w, steps), Inputs(cfg, w, steps);
            Accounted(cfg, w, steps)
            == multiset(GpioOf(inputs) + s.reader.queue) + multiset(McpOf(inputs) + s.mcpQueue)
  {
    SystemConservesSensorEvents(cfg, w, steps);
    TraceSenses(w, Inputs(cfg, w, steps));
    SensedIsBoth(Inputs(cfg, w, steps));
  }

  /** Between the sensors and the state machines nothing is duplicated, and every event of every
      accepted interrupt and every rising edge is accounted for exactly once if and only if no
      queue was ever short of room. */
  lemma SystemConservesReports(cfg: Config, w: Windows, steps: seq<SysStep>)
    ensures var reported := multiset(PinReports(steps)) + multiset(PolledEvents(Polls(steps)));
            && Accounted(cfg, w, steps) <= reported
            && (Accounted(cfg, w, steps) == reported <==> GpioRoom(cfg, w, steps) && McpRoom(cfg, w, steps))
  {
    var s, inputs := RunSys(cfg, w, steps), Inputs(cfg, w, steps);
    AccountedIsTaken(cfg, w, steps);
    GpioChannel(cfg, w, steps);
    McpChannel(cfg, w, steps);
    BothExact(multiset(GpioOf(inputs) + s.reader.queue), multiset(PinReports(steps)),
              multiset(McpOf(inputs) + s.mcpQueue), multiset(PolledEvents(Polls(steps))));
    ChannelIsExact(GpioOf(inputs), s.reader.queue, PinReports(steps), 100, GpioRoom(cfg, w, steps));
    ChannelIsExact(McpOf(inputs), s.mcpQueue, PolledEvents(Polls(steps)), 100, McpRoom(cfg, w, steps));
  }

  lemma BothExact<T>(a: multiset<T>, a': multiset<T>, b: multiset<T>, b': multiset<T>)
    requires a <= a' && b <= b'
    ensures a + b == a' + b' <==> a == a' && b == b'
  {
    if a + b == a' + b' {
      forall x
        ensures a[x] == a'[x] && b[x] == b'[x]
      {
        assert (a + b)[x] == (a' + b')[x];
      }
    }
  }

  // ------------------------------------------------------------ edges arrive in order

  lemma {:induction false} PinReportsAreNotMcp(triggers: seq<Trigger>, i: nat)
    requires i < 10
    ensures forall e :: e in EventsOf(triggers) ==> e.barrier != McpName(i)
  {
    if triggers != [] {
      PinReportsAreNotMcp(Front(triggers), i);
    }
  }

  lemma {:induction false} NoStamps(events: seq<SensorEvent>, barrier: Barrier)
    requires forall e :: e in events ==> e.barrier != barrier
    ensures StampsOf(events, barrier) == []
  {
    if events != [] {
      NoStamps(Front(events), barrier);
    }
  }

  lemma {:induction false} StampsOfSensed(inputs: seq<Input>, barrier: Barrier)
    requires forall e :: e in GpioOf(inputs) ==> e.barrier != barrier
    ensures StampsOf(SensedIn(inputs), barrier) == StampsOf(McpOf(inputs), barrier)
  {
    if inputs != [] {
      var front, input := Front(inputs), Last(inputs);
      StampsOfSensed(front, barrier);
      NoStamps(input.gpio, barrier);
      StampsConcat(SensedIn(front), input.gpio + input.mcp, barrier);
      StampsConcat(input.gpio, input.mcp, barrier);
      StampsConcat(McpOf(front), input.mcp, barrier);
      assert [] + StampsOf(input.mcp, barrier) == StampsOf(input.mcp, barrier);
    }
  }

  lemma {:induction false} StampsOfNonEntry(events: seq<SensorEvent>, barrier: Barrier)
    requires !IsEntryBarrier(barrier)
    ensures StampsOf(NonEntry(events), barrier) == StampsOf(events, barrier)
  {
    if events != [] {
      StampsOfNonEntry(Front(events), barrier);
      AppendFront(NonEntry(Front(events)), Last(events));
    }
  }

  /** How many events of the first `k` expander inputs a list holds. */
  function CountMcp(events: seq<SensorEvent>, k: nat): nat
    requires k <= 10
  {
    if k == 0 then 0 else CountMcp(events, k - 1) + |StampsOf(events, McpName(k - 1))|
  }

  lemma {:induction false} CountMcpNext(front: seq<SensorEvent>, e: SensorEvent, i: nat, k: nat)
    requires i < 10 && k <= 10 && e.barrier == McpName(i)
    ensures CountMcp(front + [e], k) == CountMcp(front, k) + if i < k then 1 else 0
  {
    if k > 0 {
      CountMcpNext(front, e, i, k - 1);
      AppendFront(front, e);
      assert McpName(k - 1) == McpName(i) <==> k - 1 == i;
    }
  }

  predicate OfMcp(e: SensorEvent) {
    exists i :: 0 <= i < 10 && e.barrier == McpName(i)
  }

  lemma {:induction false} CountMcpIsLength(events: seq<SensorEvent>)
    requires forall e :: e in events ==> OfMcp(e)
    ensures CountMcp(events, 10) == |events|
  {
    if events == [] {
      CountMcpNone(10);
    } else {
      var front, e := Front(events), Last(events);
      assert e in events;
      CountMcpIsLength(front);
      var i :| 0 <= i < 10 && e.barrier == McpName(i);
      CountMcpNext(front, e, i, 10);
      assert events == front + [e];
    }
  }

  lemma {:induction false} CountMcpNone(k: nat)
    requires k <= 10
    ensures CountMcp([], k) == 0
  {
    if k > 0 {
      CountMcpNone(k - 1);
    }
  }

  lemma {:induction false} CountMcpAgrees(a: seq<SensorEvent>, b: seq<SensorEvent>, k: nat)
    requires k <= 10 && forall i :: 0 <= i < k ==> StampsOf(a, McpName(i)) == StampsOf(b, McpName(i))
    ensures CountMcp(a, k) == CountMcp(b, k)
  {
    if k > 0 {
      CountMcpAgrees(a, b, k - 1);
    }
  }

  lemma {:induction false} EdgesAreMcp(prev: Option<Poll>, poll: Poll, k: nat)
    requires k <= 10
    ensures forall e :: e in Edges(prev, poll, k) ==> OfMcp(e)
  {
    if k > 0 {
      EdgesAreMcp(prev, poll, k - 1);
      assert McpEvent(k - 1, poll[k - 1].stamp).barrier == McpName(k - 1);
    }
  }

  lemma {:induction false} PolledAreMcp(polls: seq<Poll>)
    ensures forall e :: e in PolledEvents(polls) ==> OfMcp(e)
  {
    if polls != [] {
      PolledAreMcp(Front(polls));
      EdgesAreMcp(Latest(Front(polls)), Last(polls), 10);
    }
  }

  lemma McpStampsReachAll(taken: seq<SensorEvent>, arrived: seq<SensorEvent>)
    requires multiset(taken) <= multiset(arrived) && forall e :: e in arrived ==> OfMcp(e)
    requires forall i :: 0 <= i < 10 ==> StampsOf(taken, McpName(i)) == StampsOf(arrived, McpName(i))
    ensures |taken| == |arrived|
  {
    forall e | e in taken
      ensures OfMcp(e)
    {
      assert e in multiset(taken);
      assert e in multiset(arrived);
    }
    CountMcpAgrees(taken, arrived, 10);
    CountMcpIsLength(taken);
    CountMcpIsLength(arrived);
  }

  /** The edges of one input among those handed over and those still in the polling queue. */
  function EdgesOf(cfg: Config, w: Windows, steps: seq<SysStep>, i: nat): seq<real>
    requires i < 10
  {
    var s := RunSys(cfg, w, steps);
    var handed := HandedOver(Actions(cfg, w, steps)) + StillInside(s.outbox);
    StampsOf(Plain(handed), McpName(i)) + StampsOf(s.mcpQueue, McpName(i))
  }

  lemma EdgesAreTaken(cfg: Config, w: Windows, steps: seq<SysStep>, i: nat)
    requires i < 10
    ensures EdgesOf(cfg, w, steps, i)
            == StampsOf(McpOf(Inputs(cfg, w, steps)) + RunSys(cfg, w, steps).mcpQueue, McpName(i))
  {
    var s, inputs, b := RunSys(cfg, w, steps), Inputs(cfg, w, steps), McpName(i);
    SystemConservesSensorEvents(cfg, w, steps);
    TraceSenses(w, inputs);
    GpioChannel(cfg, w, steps);
    PinReportsAreNotMcp(Accepted(Interrupts(steps)), i);
    forall e | e in GpioOf(inputs)
      ensures e.barrier != b
    {
      assert e in GpioOf(inputs) + s.reader.queue;
      assert e in multiset(GpioOf(inputs) + s.reader.queue);
      assert e in multiset(PinReports(steps));
    }
    StampsOfSensed(inputs, b);
    StampsOfNonEntry(SensedIn(inputs), b);
    StampsConcat(McpOf(inputs), s.mcpQueue, b);
  }

  /** The state machines are handed exactly the rising edges of every expander input, once each and in
      order, up to those still in the queue, if and only if the polling loop always found room. */
  lemma SystemDeliversRisingEdges(cfg: Config, w: Windows, steps: seq<SysStep>)
    ensures (forall i :: 0 <= i < 10 ==> EdgesOf(cfg, w, steps, i) == RisingStamps(Polls(steps), i))
            <==> McpRoom(cfg, w, steps)
  {
    hide EdgesOf, RisingStamps, PolledEvents;
    var polled := PolledEvents(Polls(steps));
    var taken := McpOf(Inputs(cfg, w, steps)) + RunSys(cfg, w, steps).mcpQueue;
    forall i | 0 <= i < 10
      ensures EdgesOf(cfg, w, steps, i) == StampsOf(taken, McpName(i))
      ensures RisingStamps(Polls(steps), i) == StampsOf(polled, McpName(i))
    {
      EdgesAreTaken(cfg, w, steps, i);
      PollingReportsRisingEdges(Polls(steps), i);
    }
    McpChannel(cfg, w, steps);
    PolledAreMcp(Polls(steps));
    if forall i :: 0 <= i < 10 ==> EdgesOf(cfg, w, steps, i) == RisingStamps(Polls(steps), i) {
      McpStampsReachAll(taken, polled);
    }
  }

  lemma {:induction false} StampsOfPinned(inputs: seq<Input>, barrier: Barrier)
    requires forall e :: e in McpOf(inputs) ==> e.barrier != barrier
    ensures StampsOf(SensedIn(inputs), barrier) == StampsOf(GpioOf(inputs), barrier)
  {
    if inputs != [] {
      var front, input := Front(inputs), Last(inputs);
      StampsOfPinned(front, barrier);
      NoStamps(input.mcp, barrier);
      StampsConcat(SensedIn(front), input.gpio + input.mcp, barrier);
      StampsConcat(input.gpio, input.mcp, barrier);
      StampsConcat(GpioOf(front), input.gpio, barrier);
      assert StampsOf(input.gpio, barrier) + [] == StampsOf(input.gpio, barrier);
    }
  }

  /** The same for the light barriers on the pins: as long as the interrupts find room, the state
      machines are handed each one's accepted triggers, once each and in order, entries apart. */
  lemma SystemDeliversPinTriggers(cfg: Config, w: Windows, steps: seq<SysStep>, barrier: Barrier)
    requires !IsEntryBarrier(barrier) && forall i :: 0 <= i < 10 ==> barrier != McpName(i)
    requires GpioRoom(cfg, w, steps)
    ensures var s := RunSys(cfg, w, steps);
            var handed := HandedOver(Actions(cfg, w, steps)) + StillInside(s.outbox);
            StampsOf(Plain(handed), barrier) + StampsOf(s.reader.queue, barrier) == StampsOf(PinReports(steps), barrier)
  {
    hide PinReports, PolledEvents, StampsOf;
    var s, inputs := RunSys(cfg, w, steps), Inputs(cfg, w, steps);
    SystemConservesSensorEvents(cfg, w, steps);
    TraceSenses(w, inputs);
    McpChannel(cfg, w, steps);
    PolledAreMcp(Polls(steps));
    forall e | e in McpOf(inputs)
      ensures e.barrier != barrier
    {
      assert e in McpOf(inputs) + s.mcpQueue;
      assert e in multiset(McpOf(inputs) + s.mcpQueue);
      assert e in multiset(PolledEvents(Polls(steps)));
      assert OfMcp(e);
    }
    StampsOfPinned(inputs, barrier);
    StampsOfNonEntry(SensedIn(inputs), barrier);
    QueuesLoseNothingIffRoom(cfg, w, steps);
    StampsConcat(GpioOf(inputs), s.reader.queue, barrier);
  }

  // ----------------------------------------------------------------- reads and spacing

  lemma {:induction false} PolledAreNotEntries(polls: seq<Poll>)
    ensures forall e :: e in PolledEvents(polls) ==> !IsEntryBarrier(e.barrier)
  {
    if polls != [] {
      PolledAreNotEntries(Front(polls));
      EdgesAreNotEntries(Latest(Front(polls)), Last(polls), 10);
    }
  }

  lemma {:induction false} EdgesAreNotEntries(prev: Option<Poll>, poll: Poll, k: nat)
    requires k <= 10
    ensures forall e :: e in Edges(prev, poll, k) ==> !IsEntryBarrier(e.barrier)
  {
    if k > 0 {
      EdgesAreNotEntries(prev, poll, k - 1);
    }
  }

  /** Accepted interrupts of an entry barrier more than two windows apart rule out double matches. */
  lemma SpacedReportsNeverDoubleMatch(cfg: Config, w: Windows, steps: seq<SysStep>)
    requires SpacedTriggers(PinReports(steps), w.fusion)
    ensures NeverDoubleMatch(w, Inputs(cfg, w, steps))
  {
    var s, inputs := RunSys(cfg, w, steps), Inputs(cfg, w, steps);
    GpioChannel(cfg, w, steps);
    McpChannel(cfg, w, steps);
    SensedIsBoth(inputs);
    PolledAreNotEntries(Polls(steps));
    forall x: SensorEvent | IsEntryBarrier(x.barrier)
      ensures multiset(SensedIn(inputs))[x] <= multiset(PinReports(steps))[x]
    {
      assert x !in multiset(PolledEvents(Polls(steps)));
      assert multiset(McpOf(inputs) + s.mcpQueue)[x] <= multiset(PolledEvents(Polls(steps)))[x];
      assert multiset(GpioOf(inputs) + s.reader.queue)[x] <= multiset(PinReports(steps))[x];
    }
    SpacedSubset(PinReports(steps), SensedIn(inputs), w.fusion);
    SpacedRunNeverDoubleMatches(w, inputs);
  }

  /** With entry interrupts spaced like that, and room in the queue of the readers, every read that
      names a part is, exactly once, fused, a ghost, pending or still in the queue. */
  lemma SystemConservesScans(cfg: Config, w: Windows, steps: seq<SysStep>)
    requires SpacedTriggers(PinReports(steps), w.fusion)
    ensures var s, t := RunSys(cfg, w, steps), TraceRun(w, Inputs(cfg, w, steps));
            multiset(NamedScans(steps))
            == multiset(t.fusedReads) + multiset(t.ghosts) + multiset(s.cep.nfc) + multiset(s.nfcQueue)
            <==> NfcRoom(cfg, w, steps)
  {
    var s, inputs := RunSys(cfg, w, steps), Inputs(cfg, w, steps);
    SpacedReportsNeverDoubleMatch(cfg, w, steps);
    SystemConservesReads(cfg, w, steps);
    TraceScans(w, inputs);
    NfcChannel(cfg, w, steps);
    ChannelIsExact(ScannedIn(inputs), s.nfcQueue, NamedScans(steps), 20, NfcRoom(cfg, w, steps));
  }

  /** When no two reads are the same that condition is exact: the named reads of a run balance if and
      only if the readers always found room and no turn picked a read twice. */
  lemma SystemConservesScansExactly(cfg: Config, w: Windows, steps: seq<SysStep>)
    requires !Repeats(NamedScans(steps))
    ensures var s, t := RunSys(cfg, w, steps), TraceRun(w, Inputs(cfg, w, steps));
            multiset(NamedScans(steps))
            == multiset(t.fusedReads) + multiset(t.ghosts) + multiset(s.cep.nfc) + multiset(s.nfcQueue)
            <==> NfcRoom(cfg, w, steps) && NeverDoubleMatch(w, Inputs(cfg, w, steps))
  {
    var s, inputs := RunSys(cfg, w, steps), Inputs(cfg, w, steps);
    var t := TraceRun(w, inputs);
    if NeverDoubleMatch(w, inputs) {
      SystemConservesReads(cfg, w, steps);
      TraceScans(w, inputs);
      NfcChannel(cfg, w, steps);
      ChannelIsExact(ScannedIn(inputs), s.nfcQueue, NamedScans(steps), 20, NfcRoom(cfg, w, steps));
    } else {
      DoubleMatchRepeats(w, inputs);
      RepeatsIsTwice(t.fusedReads);
      var r :| multiset(t.fusedReads)[r] >= 2;
      if multiset(NamedScans(steps))[r] >= 2 {
        TwiceRepeats(NamedScans(steps), r);
      }
    }
  }

  // --------------------------------------------------------------- room can run short

  /** Part after part at the entry of station 1, and no turn of the consumer. */
  function Flood(k: nat): seq<SysStep> {
    if k == 0 then [] else Flood(k - 1) + [Interrupt(Trigger(17, k as real))]
  }

  lemma FloodStep(cfg: Config, w: Windows, s: Sys, k: nat)
    requires |s.reader.queue| < 100 && LastTrigger(s.reader.last, 17) + 1.0 == k as real
    ensures var step := Interrupt(Trigger(17, k as real));
            var s' := Next(cfg, w, s, step);
            && |s'.reader.queue| == |s.reader.queue| + 1 && LastTrigger(s'.reader.last, 17) == k as real
            && |Pinned(s, step)| == 1
  {
    var step := Interrupt(Trigger(17, k as real));
    QueuesAfter(cfg, w, s, step);
    NextRemembers(cfg, w, s, step);
    PinTable(k as real);
    hide Next, PinEvents, PutAll;
    PutAllFits(s.reader.queue, Pinned(s, step), 100);
  }

  lemma FloodNext(cfg: Config, w: Windows, k: nat)
    requires k > 0
    ensures var s, step := RunSys(cfg, w, Flood(k - 1)), Interrupt(Trigger(17, k as real));
            && RunSys(cfg, w, Flood(k)) == Next(cfg, w, s, step)
            && (GpioRoom(cfg, w, Flood(k))
                <==> GpioRoom(cfg, w, Flood(k - 1)) && |s.reader.queue| + |Pinned(s, step)| <= 100)
  {
    hide Next, Pinned;
    AppendFront(Flood(k - 1), Interrupt(Trigger(17, k as real)));
  }

  lemma {:induction false} FloodFills(cfg: Config, w: Windows, k: nat)
    requires k <= 100
    ensures var s := RunSys(cfg, w, Flood(k));
            |s.reader.queue| == k && LastTrigger(s.reader.last, 17) == k as real
    ensures GpioRoom(cfg, w, Flood(k))
  {
    if k > 0 {
      FloodFills(cfg, w, k - 1);
      hide Next, Pinned, LastTrigger, RunSys, GpioRoom, Flood;
      FloodNext(cfg, w, k);
      assert (k - 1) as real + 1.0 == k as real;
      FloodStep(cfg, w, RunSys(cfg, w, Flood(k - 1)), k);
    }
  }

  /** The hundredth event fills the queue and the next one is lost. */
  lemma FloodOverflows(cfg: Config, w: Windows)
    ensures GpioRoom(cfg, w, Flood(100)) && !GpioRoom(cfg, w, Flood(101))
    ensures GpioOf(Inputs(cfg, w, Flood(101))) + RunSys(cfg, w, Flood(101)).reader.queue != PinReports(Flood(101))
  {
    hide PinReports, GpioOf, Next, Inputs;
    FloodFills(cfg, w, 100);
    AppendFront(Flood(100), Interrupt(Trigger(17, 101.0)));
    assert Flood(101) == Flood(100) + [Interrupt(Trigger(17, 101.0))];
    QueuesLoseNothingIffRoom(cfg, w, Flood(101));
  }
}
