/** The wired system: sensors and readers fill queues, the consumer turns them into deliveries and
    reports, and these reach the plant one by one, with timers firing in between. */
module System {
  import opened Basics
  import opened Plant
  import opened Fusion
  import opened CepRuns
  import opened Sensors
  import opened AsWired
  import opened Timing
  import StationMirror

  const GPIO_CAPACITY := 100
  const MCP_CAPACITY := 100
  const NFC_CAPACITY := 20

  datatype Sys = Sys(
    reader: Reader,
    previous: Option<Poll>,
    mcpQueue: seq<SensorEvent>,
    nfcQueue: seq<NfcEvent>,
    cep: Cep,
    outbox: seq<Outgoing>,
    plant: Plant)

  datatype SysStep =
    | Interrupt(trigger: Trigger)
    | Polling(poll: Poll)
    | Scan(station: StationId, part: string, time: real)
    | Turn(now: real)
    | Pass(t1: real, t2: real)
    | Alarm(id: nat, t1: real, t2: real)

  function Boot(cfg: Config): Sys {
    Sys(Reader(map[], []), None, [], [], FRESH_CEP, [], Start(cfg))
  }

  /** What the plant sees of an outgoing piece: a delivery or an error report. */
  function ActionOf(o: Outgoing, t1: real, t2: real): Action {
    match o
    case Hand(d) => Deliver(d, t1, t2)
    case OrphanReport(e) => Report(PlaceUnit(e.place), UNKNOWN_PART, ErrorOrphan(e.barrier), t1, t2)
    case GhostReport(r) => Report(StationUnit(r.station), r.part, ErrorGhostNfc, t1, t2)
  }

  /** A reader thread queues only reads with a part name. */
  function Scanned(queue: seq<NfcEvent>, station: StationId, part: string, time: real): seq<NfcEvent> {
    if part == "" then queue else PutAll(queue, [NfcEvent(time, station, part)], NFC_CAPACITY)
  }

  /** The consumer begins a turn only when everything of the last turn has been handed over. */
  function TurnStep(w: Windows, s: Sys, now: real): Sys {
    if s.outbox != [] then s
    else
      var input := Input(s.reader.queue, s.mcpQueue, s.nfcQueue, now);
      s.(reader := s.reader.(queue := []), mcpQueue := [], nfcQueue := [],
         cep := Iterate(w, s.cep, input), outbox := Sent(TraceOf(w, s.cep, input)))
  }

  function Next(cfg: Config, w: Windows, s: Sys, step: SysStep): Sys {
    match step
    case Interrupt(g) => s.(reader := OnTrigger(s.reader, g, GPIO_CAPACITY))
    case Polling(poll) =>
      s.(previous := Some(poll), mcpQueue := PutAll(s.mcpQueue, Edges(s.previous, poll, 10), MCP_CAPACITY))
    case Scan(station, part, time) => s.(nfcQueue := Scanned(s.nfcQueue, station, part, time))
    case Turn(now) => TurnStep(w, s, now)
    case Pass(t1, t2) =>
      if s.outbox == [] then s
      else s.(outbox := s.outbox[1..], plant := Step(cfg, s.plant, ActionOf(s.outbox[0], t1, t2)))
    case Alarm(id, t1, t2) => s.(plant := Step(cfg, s.plant, Fire(id, t1, t2)))
  }

  function RunSys(cfg: Config, w: Windows, steps: seq<SysStep>): Sys {
    if steps == [] then Boot(cfg) else Next(cfg, w, RunSys(cfg, w, Front(steps)), Last(steps))
  }

  // -------------------------------------------------- the plant inside is a plant run

  /** The plant actions that a system step performs. */
  function Performed(s: Sys, step: SysStep): seq<Action> {
    match step
    case Pass(t1, t2) => if s.outbox == [] then [] else [ActionOf(s.outbox[0], t1, t2)]
    case Alarm(id, t1, t2) => [Fire(id, t1, t2)]
    case _ => []
  }

  function Actions(cfg: Config, w: Windows, steps: seq<SysStep>): seq<Action> {
    if steps == [] then []
    else Actions(cfg, w, Front(steps)) + Performed(RunSys(cfg, w, Front(steps)), Last(steps))
  }

  lemma {:induction false} SystemRunsPlant(cfg: Config, w: Windows, steps: seq<SysStep>)
    ensures RunSys(cfg, w, steps).plant == Run(cfg, Actions(cfg, w, steps))
  {
    if steps != [] {
      var before := Actions(cfg, w, Front(steps));
      SystemRunsPlant(cfg, w, Front(steps));
      var s := RunSys(cfg, w, Front(steps));
      var performed := Performed(s, Last(steps));
      if performed == [] {
        assert before + performed == before;
      } else {
        RunAppend(cfg, before, performed[0]);
        assert performed == [performed[0]];
      }
    }
  }

  // ------------------------------------------------------- what travels through the queues

  ghost predicate AllWired(es: seq<SensorEvent>) {
    forall i :: 0 <= i < |es| ==> Wired(es[i])
  }

  ghost predicate AllNamed(rs: seq<NfcEvent>) {
    forall i :: 0 <= i < |rs| ==> rs[i].part != ""
  }

  /** A wired event; an entry comes with a part, and no part is nameless. */
  predicate Sound(d: Delivery) {
    Wired(d.event) && (IsEntryBarrier(d.event.barrier) ==> d.part.Some?) && d.part != Some("")
  }

  ghost predicate AllSound(out: seq<Outgoing>) {
    forall i :: 0 <= i < |out| && out[i].Hand? ==> Sound(out[i].delivery)
  }

  ghost predicate Clean(s: Sys) {
    && AllWired(s.reader.queue) && AllWired(s.mcpQueue) && AllNamed(s.nfcQueue)
    && AllWired(s.cep.gpio) && AllNamed(s.cep.nfc) && AllSound(s.outbox)
  }

  lemma {:induction false} PutAllMembers<T>(queue: seq<T>, events: seq<T>, capacity: nat)
    ensures forall x :: x in PutAll(queue, events, capacity) ==> x in queue || x in events
  {
    if events != [] {
      PutAllMembers(queue, Front(events), capacity);
      assert events == Front(events) + [Last(events)];
    }
  }

  lemma PutAllWired(queue: seq<SensorEvent>, events: seq<SensorEvent>, capacity: nat)
    requires AllWired(queue) && forall e :: e in events ==> Wired(e)
    ensures AllWired(PutAll(queue, events, capacity))
  {
    PutAllMembers(queue, events, capacity);
    var all := PutAll(queue, events, capacity);
    forall i | 0 <= i < |all|
      ensures Wired(all[i])
    {
      assert all[i] in all;
    }
  }

  lemma PutAllNamed(queue: seq<NfcEvent>, events: seq<NfcEvent>, capacity: nat)
    requires AllNamed(queue) && AllNamed(events)
    ensures AllNamed(PutAll(queue, events, capacity))
  {
    PutAllMembers(queue, events, capacity);
    var all := PutAll(queue, events, capacity);
    forall i | 0 <= i < |all|
      ensures all[i].part != ""
    {
      assert all[i] in all;
    }
  }

  lemma {:induction false} HandAllSound(ds: seq<Delivery>)
    requires forall d :: d in ds ==> Sound(d)
    ensures AllSound(HandAll(ds))
  {
    if ds != [] {
      HandAllSound(Front(ds));
      assert Last(ds) in ds;
    }
  }

  lemma {:induction false} ReportsSound(es: seq<SensorEvent>, rs: seq<NfcEvent>)
    ensures forall i :: 0 <= i < |OrphanAll(es)| ==> OrphanAll(es)[i].OrphanReport?
    ensures forall i :: 0 <= i < |GhostAll(rs)| ==> GhostAll(rs)[i].GhostReport?
    decreases |es| + |rs|
  {
    if es != [] {
      ReportsSound(Front(es), rs);
    } else if rs != [] {
      ReportsSound(es, Front(rs));
    }
  }

  lemma TurnSendsSound(w: Windows, c: Cep, input: Input)
    requires AllWired(c.gpio) && AllNamed(c.nfc)
    requires AllWired(input.gpio) && AllWired(input.mcp) && AllNamed(input.nfc)
    ensures AllSound(Sent(TraceOf(w, c, input)))
  {
    var consumed, t := Consume(c, input), TraceOf(w, c, input);
    DeliveriesCarryParts(consumed.gpio, consumed.nfc, w.fusion);
    forall d | d in t.deliveries
      ensures Sound(d)
    {
      assert d.event in consumed.gpio;
    }
    HandAllSound(t.deliveries);
    ReportsSound(t.orphans, t.ghosts);
  }

  lemma IterateMembers(w: Windows, c: Cep, input: Input)
    ensures forall e :: e in Iterate(w, c, input).gpio ==> e in Consume(c, input).gpio
    ensures forall r :: r in Iterate(w, c, input).nfc ==> r in Consume(c, input).nfc
  {
    var consumed := Consume(c, input);
    var fused := Fuse(w, consumed);
    UnhandledMembers(consumed.gpio, consumed.nfc, w.fusion);
    DeleteEachMembers(consumed.nfc, SortDescending(Picks(consumed.gpio, consumed.nfc, w.fusion)));
    AgedMembers(fused.gpio, SensedAt, input.now, w.expiry, false);
    AgedMembers(fused.nfc, ReadAt, input.now, w.expiry, false);
  }

  lemma TurnKeepsClean(w: Windows, s: Sys, now: real)
    requires Clean(s)
    ensures Clean(TurnStep(w, s, now))
  {
    if s.outbox == [] {
      var input := Input(s.reader.queue, s.mcpQueue, s.nfcQueue, now);
      var consumed, c' := Consume(s.cep, input), Iterate(w, s.cep, input);
      TurnSendsSound(w, s.cep, input);
      IterateMembers(w, s.cep, input);
      forall i | 0 <= i < |c'.gpio|
        ensures Wired(c'.gpio[i])
      {
        assert c'.gpio[i] in consumed.gpio;
      }
      forall i | 0 <= i < |c'.nfc|
        ensures c'.nfc[i].part != ""
      {
        assert c'.nfc[i] in consumed.nfc;
      }
    }
  }

  lemma NextKeepsClean(cfg: Config, w: Windows, s: Sys, step: SysStep)
    requires Clean(s)
    ensures Clean(Next(cfg, w, s, step))
  {
    match step
    case Interrupt(g) => PutAllWired(s.reader.queue, PinEvents(g.pin, g.time), GPIO_CAPACITY);
    case Polling(poll) => PutAllWired(s.mcpQueue, Edges(s.previous, poll, 10), MCP_CAPACITY);
    case Scan(station, part, time) =>
      if part != "" {
        PutAllNamed(s.nfcQueue, [NfcEvent(time, station, part)], NFC_CAPACITY);
      }
    case Turn(now) => TurnKeepsClean(w, s, now);
    case _ =>
  }

  lemma {:induction false} RunIsClean(cfg: Config, w: Windows, steps: seq<SysStep>)
    ensures Clean(RunSys(cfg, w, steps))
  {
    if steps != [] {
      RunIsClean(cfg, w, Front(steps));
      NextKeepsClean(cfg, w, RunSys(cfg, w, Front(steps)), Last(steps));
    }
  }

  ghost predicate SoundActions(actions: seq<Action>) {
    forall i :: 0 <= i < |actions| && actions[i].Deliver? ==> Sound(actions[i].delivery)
  }

  lemma {:induction false} SystemActionsAreSound(cfg: Config, w: Windows, steps: seq<SysStep>)
    ensures SoundActions(Actions(cfg, w, steps))
  {
    if steps != [] {
      SystemActionsAreSound(cfg, w, Front(steps));
      RunIsClean(cfg, w, Front(steps));
    }
  }

  lemma SoundIsWired(actions: seq<Action>)
    requires SoundActions(actions)
    ensures WiredActions(actions) && EntriesCarryParts(actions) && StationMirror.NamedParts(actions)
  {
    forall i | 0 <= i < |actions| && actions[i].Deliver?
      ensures Wired(actions[i].delivery.event) && actions[i].delivery.part != Some("")
      ensures actions[i].delivery.event.barrier.StationEntry? ==> actions[i].delivery.part.Some?
    {
      assert Sound(actions[i].delivery);
    }
  }

  // ------------------------------------------------------------------ system theorems

  /** From power-up on, whatever the sensors, readers and timers do, the system as wired pushes
      at most once per corner and at most twice in all. */
  lemma SystemPushesAtMostTwice(cfg: Config, w: Windows, steps: seq<SysStep>)
    requires cfg.Valid()
    ensures var log := RunSys(cfg, w, steps).plant.sh.log;
            && (forall c: CornerId :: |PushStarts(log, c)| <= 1)
            && |PushStarts(log, 1)| + |PushStarts(log, 2)| + |PushStarts(log, 3)| + |PushStarts(log, 4)| <= 2
  {
    SystemRunsPlant(cfg, w, steps);
    SystemActionsAreSound(cfg, w, steps);
    SoundIsWired(Actions(cfg, w, steps));
    WiredRunPushesAtMostTwice(cfg, Actions(cfg, w, steps));
  }

  /** No station of the wired system ever refuses an entry, and the logger mirrors the stations. */
  lemma SystemEntriesHaveParts(cfg: Config, w: Windows, steps: seq<SysStep>, start: real)
    requires cfg.Valid()
    ensures var p := RunSys(cfg, w, steps).plant;
            NoRefusal(p.sh.log) && StationMirror.LoggerMirrors(start, p)
  {
    SystemRunsPlant(cfg, w, steps);
    SystemActionsAreSound(cfg, w, steps);
    SoundIsWired(Actions(cfg, w, steps));
    NoEntryIsRefused(cfg, Actions(cfg, w, steps));
    StationMirror.NamedPartsExitNamed(cfg, Actions(cfg, w, steps));
    StationMirror.RunMirrorsLogger(cfg, Actions(cfg, w, steps), start);
  }

  // ------------------------------------------ the consumer inside is a consumer run

  /** What each turn of the consumer found in the queues. */
  function Inputs(cfg: Config, w: Windows, steps: seq<SysStep>): seq<Input> {
    if steps == [] then []
    else
      var before, s := Inputs(cfg, w, Front(steps)), RunSys(cfg, w, Front(steps));
      if Last(steps).Turn? && s.outbox == [] then
        before + [Input(s.reader.queue, s.mcpQueue, s.nfcQueue, Last(steps).now)]
      else before
  }

  /** The deliveries among the actions performed, and those still in the outbox. */
  function HandedOver(actions: seq<Action>): seq<Delivery> {
    if actions == [] then []
    else if Last(actions).Deliver? then HandedOver(Front(actions)) + [Last(actions).delivery]
    else HandedOver(Front(actions))
  }

  function StillInside(out: seq<Outgoing>): seq<Delivery> {
    if out == [] then []
    else if Last(out).Hand? then StillInside(Front(out)) + [Last(out).delivery]
    else StillInside(Front(out))
  }

  lemma {:induction false} InsideConcat(a: seq<Outgoing>, b: seq<Outgoing>)
    ensures StillInside(a + b) == StillInside(a) + StillInside(b)
  {
    if b == [] {
      assert a + b == a;
    } else {
      InsideConcat(a, Front(b));
      assert Front(a + b) == a + Front(b) && Last(a + b) == Last(b);
    }
  }

  lemma {:induction false} InsideHands(ds: seq<Delivery>)
    ensures StillInside(HandAll(ds)) == ds
  {
    if ds != [] {
      InsideHands(Front(ds));
      AppendFront(HandAll(Front(ds)), Hand(Last(ds)));
      assert ds == Front(ds) + [Last(ds)];
    }
  }

  lemma {:induction false} NothingInside(out: seq<Outgoing>)
    requires forall i :: 0 <= i < |out| ==> !out[i].Hand?
    ensures StillInside(out) == []
  {
    if out != [] {
      NothingInside(Front(out));
    }
  }

  lemma SentInside(t: Trace)
    ensures StillInside(Sent(t)) == t.deliveries
  {
    var hands, orphans, ghosts := HandAll(t.deliveries), OrphanAll(t.orphans), GhostAll(t.ghosts);
    ReportsSound(t.orphans, t.ghosts);
    InsideConcat(hands + orphans, ghosts);
    InsideConcat(hands, orphans);
    InsideHands(t.deliveries);
    NothingInside(orphans);
    NothingInside(ghosts);
  }

  lemma InsideTail(out: seq<Outgoing>)
    requires out != []
    ensures StillInside(out) == (if out[0].Hand? then [out[0].delivery] else []) + StillInside(out[1..])
  {
    assert out == [out[0]] + out[1..];
    InsideConcat([out[0]], out[1..]);
    assert StillInside([out[0]]) == if out[0].Hand? then [out[0].delivery] else [] by {
      assert Front([out[0]]) == [];
    }
  }

  lemma HandedAppend(actions: seq<Action>, a: Action)
    ensures HandedOver(actions + [a]) == HandedOver(actions) + if a.Deliver? then [a.delivery] else []
  {
    AppendFront(actions, a);
  }

  ghost predicate RunsConsumer(w: Windows, cep: Cep, out: seq<Outgoing>, inputs: seq<Input>, actions: seq<Action>) {
    cep == RunCep(w, inputs) && HandedOver(actions) + StillInside(out) == TraceRun(w, inputs).deliveries
  }

  lemma TurnRunsConsumer(w: Windows, cep: Cep, inputs: seq<Input>, input: Input, actions: seq<Action>)
    requires RunsConsumer(w, cep, [], inputs, actions)
    ensures RunsConsumer(w, Iterate(w, cep, input), Sent(TraceOf(w, cep, input)), inputs + [input], actions)
  {
    hide Iterate, TraceOf, Sent;
    AppendFront(inputs, input);
    SentInside(TraceOf(w, cep, input));
    assert StillInside([]) == [];
    assert HandedOver(actions) + [] == HandedOver(actions);
  }

  lemma PassRunsConsumer(w: Windows, cep: Cep, out: seq<Outgoing>, inputs: seq<Input>, actions: seq<Action>, t1: real, t2: real)
    requires out != [] && RunsConsumer(w, cep, out, inputs, actions)
    ensures RunsConsumer(w, cep, out[1..], inputs, actions + [ActionOf(out[0], t1, t2)])
  {
    hide RunCep, TraceRun, StillInside, HandedOver;
    HandedAppend(actions, ActionOf(out[0], t1, t2));
    InsideTail(out);
  }

  lemma {:induction false} SystemRunsConsumer(cfg: Config, w: Windows, steps: seq<SysStep>)
    ensures var s := RunSys(cfg, w, steps);
            RunsConsumer(w, s.cep, s.outbox, Inputs(cfg, w, steps), Actions(cfg, w, steps))
  {
    hide Iterate, TraceOf, Sent, ActionOf, Step, RunsConsumer;
    if steps == [] {
      assert RunsConsumer(w, FRESH_CEP, [], [], []) by {
        NothingYet(w);
      }
    } else {
      var front, step := Front(steps), Last(steps);
      var s, inputs, actions := RunSys(cfg, w, front), Inputs(cfg, w, front), Actions(cfg, w, front);
      SystemRunsConsumer(cfg, w, front);
      assert actions + [] == actions;
      match step {
        case Turn(now) =>
          if s.outbox == [] {
            TurnRunsConsumer(w, s.cep, inputs, Input(s.reader.queue, s.mcpQueue, s.nfcQueue, now), actions);
          }
        case Pass(t1, t2) =>
          if s.outbox != [] {
            PassRunsConsumer(w, s.cep, s.outbox, inputs, actions, t1, t2);
          }
        case Alarm(id, t1, t2) => AlarmRunsConsumer(w, s.cep, s.outbox, inputs, actions, Fire(id, t1, t2));
        case _ =>
      }
    }
  }

  lemma NothingYet(w: Windows)
    ensures RunsConsumer(w, FRESH_CEP, [], [], [])
  {
  }

  lemma AlarmRunsConsumer(w: Windows, cep: Cep, out: seq<Outgoing>, inputs: seq<Input>, actions: seq<Action>, a: Action)
    requires RunsConsumer(w, cep, out, inputs, actions) && !a.Deliver?
    ensures RunsConsumer(w, cep, out, inputs, actions + [a])
  {
    HandedAppend(actions, a);
    assert HandedOver(actions) + [] == HandedOver(actions);
  }

  /** The sensor events of the wired system: each one consumed is handed over or on its way, plain
      ones in the order consumed, entries with a part, or it was orphaned or is pending. */
  lemma SystemConservesSensorEvents(cfg: Config, w: Windows, steps: seq<SysStep>)
    ensures var s := RunSys(cfg, w, steps);
            var t := TraceRun(w, Inputs(cfg, w, steps));
            var handed := HandedOver(Actions(cfg, w, steps)) + StillInside(s.outbox);
            && multiset(t.sensed) == multiset(Plain(handed)) + multiset(Entries(handed))
                                     + multiset(t.orphans) + multiset(s.cep.gpio)
            && Plain(handed) == NonEntry(t.sensed)
            && NonEntry(t.orphans) == []
            && s.cep.stats.totalGpio == |t.sensed| && s.cep.stats.fused == |Entries(handed)|
            && s.cep.stats.orphaned == |t.orphans|
  {
    SystemRunsConsumer(cfg, w, steps);
    SensorEventsConserved(w, Inputs(cfg, w, steps));
  }

  /** Nor does the wired system lose a read, as long as none is picked twice. */
  lemma SystemConservesReads(cfg: Config, w: Windows, steps: seq<SysStep>)
    requires NeverDoubleMatch(w, Inputs(cfg, w, steps))
    ensures ReadBalance(RunSys(cfg, w, steps).cep, TraceRun(w, Inputs(cfg, w, steps)))
  {
    SystemRunsConsumer(cfg, w, steps);
    ReadsConserved(w, Inputs(cfg, w, steps));
  }
}
