/** The wiring of system_manager.py: queues, sensor reader, consumer and the table of state
    machines. Each of its steps is a step of the step system, so every theorem about system runs
    is a theorem about this object. */
module Manager {
  import opened Basics
  import opened Queues
  import opened Sensors
  import opened SensorRead
  import opened CepRuns
  import opened CepConsume
  import opened FsmTable
  import opened DataLog
  import opened Collision
  import opened StationControl
  import opened CornerControl
  import opened TimerPool
  import opened MotorControl
  import opened Sy = System
  import Plant

  class SystemManager {
    const windows: Windows
    const gpioQueue: EventQueue<SensorEvent>
    const mcpQueue: EventQueue<SensorEvent>
    const nfcQueue: EventQueue<NfcEvent>
    const sensors: SensorReader
    const cepConsumer: CEPConsumer
    const fsmMap: FsmMap
    ghost var previous: Option<Poll>

    /** The constant part of the wiring. */
    ghost predicate Assembled() {
      && gpioQueue != mcpQueue
      && gpioQueue.capacity == GPIO_CAPACITY && mcpQueue.capacity == MCP_CAPACITY && nfcQueue.capacity == NFC_CAPACITY
      && sensors.gpioQueue == gpioQueue && sensors.mcpQueue == mcpQueue
      && cepConsumer.gpioQueue == gpioQueue && cepConsumer.mcpQueue == mcpQueue && cepConsumer.nfcQueue == nfcQueue
      && cepConsumer.windows == windows
    }

    ghost predicate Valid()
      reads this, sensors, fsmMap.collisionMgr, fsmMap.dataLogger
    {
      Assembled() && sensors.Remembers(previous) && fsmMap.Valid()
    }

    ghost function View(): Sys
      requires Valid()
      reads this, sensors, cepConsumer, gpioQueue, mcpQueue, nfcQueue,
            fsmMap.Objects(), fsmMap.collisionMgr, fsmMap.dataLogger
    {
      Sys(Reader(sensors.lastTriggerTime, gpioQueue.items), previous, mcpQueue.items, nfcQueue.items,
          cepConsumer.View(), cepConsumer.outbox, fsmMap.View())
    }

    constructor (cfg: Config, windows: Windows, now: real)
      ensures Valid() && View() == Boot(cfg)
      ensures fsmMap.cfg == cfg && this.windows == windows && fsmMap.dataLogger.systemStartTime == now
    {
      hide DataLogger.Valid, CollisionManager.Valid;
      this.windows := windows;
      var gpio := new EventQueue<SensorEvent>(GPIO_CAPACITY);
      var mcp := new EventQueue<SensorEvent>(MCP_CAPACITY);
      var nfc := new EventQueue<NfcEvent>(NFC_CAPACITY);
      gpioQueue, mcpQueue, nfcQueue := gpio, mcp, nfc;
      sensors := new SensorReader(gpio, mcp);
      fsmMap := new FsmMap(cfg, now);
      cepConsumer := new CEPConsumer(gpio, mcp, nfc, windows);
      previous := None;
    }

    method OnInterrupt(channel: int, now: real)
      requires Valid()
      modifies sensors, gpioQueue
      ensures Valid()
      ensures View() == Next(fsmMap.cfg, windows, old(View()), Interrupt(Trigger(channel, now)))
    {
      hide DataLogger.Valid, CollisionManager.Valid, CollisionManager.View, MotorController.View, TimerService.View;
      hide CornerController.Fsm, StationController.Fsm, Plant.Step, TurnStep;
      sensors.GpioCallback(channel, now);
    }

    method OnPoll(poll: Poll)
      requires Valid()
      modifies this, sensors, mcpQueue
      ensures Valid() && View() == Next(fsmMap.cfg, windows, old(View()), Polling(poll))
    {
      hide DataLogger.Valid, CollisionManager.Valid, CollisionManager.View, MotorController.View, TimerService.View;
      hide CornerController.Fsm, StationController.Fsm, Plant.Step, TurnStep;
      sensors.PollOnce(poll, previous);
      previous := Some(poll);
    }

    /** A reader thread has read a tag; an empty read is not queued. */
    method OnScan(station: StationId, part: string, now: real)
      requires Valid()
      modifies nfcQueue
      ensures Valid() && View() == Next(fsmMap.cfg, windows, old(View()), Scan(station, part, now))
    {
      hide DataLogger.Valid, CollisionManager.Valid, CollisionManager.View, MotorController.View, TimerService.View;
      hide CornerController.Fsm, StationController.Fsm, Plant.Step, TurnStep;
      if part != "" {
        ghost var before, scan := nfcQueue.items, NfcEvent(now, station, part);
        var ok := nfcQueue.PutNowait(NfcEvent(now, station, part));
        assert Front([scan]) == [] && PutAll(before, [], NFC_CAPACITY) == before;
      }
    }

    /** The consumer thread begins a turn when it has handed over all of the last one. */
    method OnTurn(now: real)
      requires Valid()
      modifies cepConsumer, gpioQueue, mcpQueue, nfcQueue
      ensures Valid() && View() == Next(fsmMap.cfg, windows, old(View()), Turn(now))
    {
      hide Iterate, TraceOf, Sent, DataLogger.Valid, CollisionManager.Valid;
      if cepConsumer.outbox == [] {
        cepConsumer.RunOnce(now);
      }
    }

    /** The consumer thread hands over its next delivery or report. */
    method OnPass(t1: real, t2: real)
      requires Valid()
      modifies cepConsumer`outbox, fsmMap.Objects()
      ensures Valid() && View() == Next(fsmMap.cfg, windows, old(View()), Pass(t1, t2))
    {
      hide Plant.Step, ActionOf, FsmMap.View, FsmMap.Valid;
      if cepConsumer.outbox == [] {
        return;
      }
      var next := cepConsumer.outbox[0];
      cepConsumer.outbox := cepConsumer.outbox[1..];
      fsmMap.Perform(ActionOf(next, t1, t2));
    }

    method OnAlarm(id: nat, t1: real, t2: real)
      requires Valid()
      modifies fsmMap.Objects()
      ensures Valid() && View() == Next(fsmMap.cfg, windows, old(View()), Alarm(id, t1, t2))
    {
      hide Plant.Step, FsmMap.View, FsmMap.Valid, CEPConsumer.View;
      fsmMap.Perform(Plant.Fire(id, t1, t2));
    }
  }
}
