/** The mutable station controller of station_controller.py, handler by handler. */
module StationControl {
  import opened Basics
  import opened MotorControl
  import opened TimerPool
  import opened Collision
  import opened SharedState
  import opened DataLog
  import opened Stations

  class StationController {
    const num: StationId
    const cfg: Config
    const motors: MotorController
    const dataLogger: DataLogger
    const timers: TimerService
    var state: StationState
    var currentPart: Option<string>
    var entryTimestamp: Option<real>
    var processTimer: Option<nat>

    ghost function Footprint(): set<object> {
      {motors.throttle, dataLogger, timers}
    }

    ghost predicate Valid()
      reads Footprint()
    {
      motors.Valid() && dataLogger.Valid()
    }

    /** A station never touches the reservations, so they are passed in. */
    ghost function SharedView(manager: Manager): Shared
      requires Valid()
      reads Footprint()
    {
      Shared(manager, timers.View(), motors.View(), dataLogger.log)
    }

    ghost function Fsm(): StationFsm
      reads this
    {
      StationFsm(state, currentPart, entryTimestamp, processTimer)
    }

    ghost function View(manager: Manager): StationView
      requires Valid()
      reads this, Footprint()
    {
      StationView(Fsm(), SharedView(manager))
    }

    constructor (num: StationId, motors: MotorController, dataLogger: DataLogger, timers: TimerService, cfg: Config)
      requires motors.Valid() && dataLogger.Valid()
      ensures this.num == num && this.cfg == cfg
      ensures this.motors == motors && this.dataLogger == dataLogger && this.timers == timers
      ensures Valid()
      ensures state == Idle && currentPart == None && entryTimestamp == None && processTimer == None
    {
      this.num, this.cfg := num, cfg;
      this.motors, this.dataLogger, this.timers := motors, dataLogger, timers;
      state, currentPart, entryTimestamp, processTimer := Idle, None, None, None;
    }

    method ProcessEvent(d: Delivery, t1: real, t2: real, ghost manager: Manager)
      requires Valid()
      modifies this, Footprint()
      ensures Valid() && View(manager) == React(cfg, num, old(View(manager)), d, t1, t2)
    {
      hide DataLogger.Valid, TimerService.View, MotorController.View;
      if state == Idle {
        HandleIdle(d, t1, manager);
      } else if state == Entering {
        HandleEntering(d.event.barrier, t1, t2, manager);
      } else if state == AdvancingToExit {
        HandleAdvancingToExit(d.event, t1, manager);
      }
    }

    method HandleIdle(d: Delivery, now: real, ghost manager: Manager)
      requires Valid()
      modifies this, Footprint()
      ensures Valid() && View(manager) == Stations.HandleIdle(cfg, num, old(View(manager)), d, now)
    {
      hide DataLogger.Valid, TimerService.View, MotorController.View;
      if d.event.barrier != StationEntry(num) {
        return;
      }
      if d.part.None? {
        dataLogger.LogEvent(UNKNOWN_PART, StationUnit(num), ErrorNoPartId, now);
        return;
      }
      currentPart := d.part;
      entryTimestamp := Some(d.event.stamp);
      dataLogger.LogEvent(d.part.value, StationUnit(num), Enter, now);
      motors.SetSpeed(StationMotor(num), StationSpeed(cfg, num));
      state := Entering;
    }

    method HandleEntering(barrier: Barrier, t1: real, t2: real, ghost manager: Manager)
      requires Valid()
      modifies this, Footprint()
      ensures Valid() && View(manager) == Stations.HandleEntering(cfg, num, old(View(manager)), barrier, t1, t2)
    {
      hide DataLogger.Valid, TimerService.View, MotorController.View;
      if barrier == StationEntry(num) {
        return;
      }
      if barrier == StationProcess(num) {
        motors.Stop(StationMotor(num));
        var part := if currentPart.Some? then currentPart.value else "";
        dataLogger.LogEvent(part, StationUnit(num), ProcessStart, t1);
        state := Processing;
        StartProcessing(t2, manager);
      }
    }

    method StartProcessing(now: real, ghost manager: Manager)
      requires Valid()
      modifies this`processTimer, timers
      ensures Valid() && processTimer == Some(old(timers.View().next))
      ensures SharedView(manager) == old(SharedView(manager)).Timed(ProcessDone(num), now + cfg.ProcessTime(num))
    {
      hide DataLogger.Valid, TimerService.View, MotorController.View;
      var id := timers.Start(ProcessDone(num), now + cfg.ProcessTime(num));
      processTimer := Some(id);
    }

    method ProcessingComplete(now: real, ghost manager: Manager)
      requires Valid()
      modifies this, Footprint()
      ensures Valid() && View(manager) == Stations.ProcessingComplete(cfg, num, old(View(manager)), now)
    {
      hide DataLogger.Valid, TimerService.View, MotorController.View;
      var part := if currentPart.Some? then currentPart.value else "";
      dataLogger.LogEvent(part, StationUnit(num), ProcessEnd, now);
      motors.SetSpeed(StationMotor(num), StationSpeed(cfg, num));
      state := AdvancingToExit;
    }

    method HandleAdvancingToExit(event: SensorEvent, now: real, ghost manager: Manager)
      requires Valid()
      modifies this, Footprint()
      ensures Valid() && View(manager) == Stations.HandleAdvancingToExit(cfg, num, old(View(manager)), event, now)
    {
      hide DataLogger.Valid, TimerService.View, MotorController.View;
      if event.barrier == StationExit(num) {
        motors.Stop(StationMotor(num));
        motors.SetSpeed(StationMotor(num), StationSpeed(cfg, num));
        state := Exiting;
        var id := timers.Start(ExitDone(num, event.stamp), now + EXIT_DELAY);
      }
    }

    method ExitComplete(now: real, ghost manager: Manager)
      requires Valid()
      modifies this, Footprint()
      ensures Valid() && View(manager) == Stations.ExitComplete(num, old(View(manager)), now)
    {
      hide DataLogger.Valid, TimerService.View, MotorController.View;
      motors.Stop(StationMotor(num));
      if currentPart.Some? && currentPart.value != "" {
        dataLogger.LogEvent(currentPart.value, StationUnit(num), Exit, now);
      }
      currentPart := None;
      entryTimestamp := None;
      state := Idle;
    }

    /** A timer of this station fires. */
    method Wake(callback: Callback, now: real, ghost manager: Manager)
      requires Valid() && OfStation(callback, num)
      modifies this, Footprint()
      ensures Valid() && View(manager) == Awake(cfg, num, old(View(manager)), callback, now)
    {
      hide DataLogger.Valid, TimerService.View, MotorController.View;
      if callback.ProcessDone? {
        ProcessingComplete(now, manager);
      } else {
        ExitComplete(now, manager);
      }
    }
  }
}
