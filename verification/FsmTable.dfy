/** The table of state machines of system_manager.py: two stations and four corners over one set
    of motors, reservations, timers and one logger. */
module FsmTable {
  import opened Basics
  import opened MotorControl
  import opened TimerPool
  import opened Collision
  import opened SharedState
  import opened DataLog
  import opened CornerControl
  import opened StationControl
  import opened P = Plant
  import C = Corners
  import S = Stations

  /** A corner controller in its initial state, connected to the given objects. */
  ghost predicate IsNewCorner(corner: CornerController, c: CornerId, motors: MotorController,
                              collisionMgr: CollisionManager, dataLogger: DataLogger, timers: TimerService, cfg: Config)
    reads corner
  {
    && corner.num == c && corner.cfg == cfg && corner.motors == motors && corner.collisionMgr == collisionMgr
    && corner.dataLogger == dataLogger && corner.timers == timers
    && corner.state == C.Idle && corner.approachTimer == None && corner.handshakeTimer == None
  }

  /** The loop that builds the four corners; corners 1 and 3 start their conveyors. */
  method BuildCorners(motors: MotorController, collisionMgr: CollisionManager, dataLogger: DataLogger,
                      timers: TimerService, cfg: Config)
    returns (c1: CornerController, c2: CornerController, c3: CornerController, c4: CornerController)
    requires motors.Valid() && motors.View() == STOPPED && collisionMgr.Valid() && dataLogger.Valid()
    modifies motors.throttle
    ensures fresh({c1, c2, c3, c4})
    ensures IsNewCorner(c1, 1, motors, collisionMgr, dataLogger, timers, cfg)
    ensures IsNewCorner(c2, 2, motors, collisionMgr, dataLogger, timers, cfg)
    ensures IsNewCorner(c3, 3, motors, collisionMgr, dataLogger, timers, cfg)
    ensures IsNewCorner(c4, 4, motors, collisionMgr, dataLogger, timers, cfg)
    ensures motors.View() == Start(cfg).sh.throttle
  {
    c1 := new CornerController(1, motors, collisionMgr, dataLogger, timers, cfg);
    c2 := new CornerController(2, motors, collisionMgr, dataLogger, timers, cfg);
    assert motors.View() == WithSpeed(STOPPED, 1, cfg.conveyorSpeed);
    c3 := new CornerController(3, motors, collisionMgr, dataLogger, timers, cfg);
    c4 := new CornerController(4, motors, collisionMgr, dataLogger, timers, cfg);
  }

  ghost predicate IsNewStation(station: StationController, n: StationId, motors: MotorController,
                               dataLogger: DataLogger, timers: TimerService, cfg: Config)
    reads station
  {
    && station.num == n && station.cfg == cfg && station.motors == motors
    && station.dataLogger == dataLogger && station.timers == timers
    && station.state == S.Idle && station.currentPart == None && station.entryTimestamp == None
    && station.processTimer == None
  }

  method BuildStations(motors: MotorController, dataLogger: DataLogger, timers: TimerService, cfg: Config)
    returns (s1: StationController, s2: StationController)
    requires motors.Valid() && dataLogger.Valid()
    ensures fresh({s1, s2})
    ensures IsNewStation(s1, 1, motors, dataLogger, timers, cfg)
    ensures IsNewStation(s2, 2, motors, dataLogger, timers, cfg)
  {
    s1 := new StationController(1, motors, dataLogger, timers, cfg);
    s2 := new StationController(2, motors, dataLogger, timers, cfg);
  }

  class FsmMap {
    const cfg: Config
    const motors: MotorController
    const collisionMgr: CollisionManager
    const dataLogger: DataLogger
    const timers: TimerService
    const station1: StationController
    const station2: StationController
    const corner1: CornerController
    const corner2: CornerController
    const corner3: CornerController
    const corner4: CornerController

    ghost predicate CornerWired(corner: CornerController, c: CornerId) {
      && corner.num == c && corner.cfg == cfg && corner.motors == motors && corner.collisionMgr == collisionMgr
      && corner.dataLogger == dataLogger && corner.timers == timers
    }

    ghost predicate StationWired(station: StationController, n: StationId) {
      && station.num == n && station.cfg == cfg && station.motors == motors
      && station.dataLogger == dataLogger && station.timers == timers
    }

    /** The constant part of the wiring. */
    ghost predicate Assembled() {
      && motors.Valid()
      && CornerWired(corner1, 1) && CornerWired(corner2, 2) && CornerWired(corner3, 3) && CornerWired(corner4, 4)
      && StationWired(station1, 1) && StationWired(station2, 2)
    }

    ghost predicate Valid()
      reads collisionMgr, dataLogger
    {
      Assembled() && collisionMgr.Valid() && dataLogger.Valid()
    }

    ghost function Objects(): set<object> {
      {motors.throttle, collisionMgr, dataLogger, timers, station1, station2, corner1, corner2, corner3, corner4}
    }

    ghost function SharedView(): Shared
      requires Valid()
      reads motors.throttle, collisionMgr, dataLogger, timers
    {
      Shared(collisionMgr.View(), timers.View(), motors.View(), dataLogger.log)
    }

    ghost function View(): Plant
      requires Valid()
      reads Objects(), collisionMgr, dataLogger
    {
      P.Plant(
        PerCorner(corner1.Fsm(), corner2.Fsm(), corner3.Fsm(), corner4.Fsm()),
        PerStation(station1.Fsm(), station2.Fsm()),
        SharedView())
    }

    constructor (cfg: Config, now: real)
      ensures Valid() && fresh(Objects())
      ensures View() == Start(cfg)
      ensures this.cfg == cfg && dataLogger.systemStartTime == now
    {
      hide DataLogger.Valid, CollisionManager.Valid, CollisionManager.View, TimerService.View, MotorController.View;
      this.cfg := cfg;
      var drives := new MotorController();
      var reservations := new CollisionManager();
      var logger := new DataLogger(now);
      var clock := new TimerService();
      motors, collisionMgr, dataLogger, timers := drives, reservations, logger, clock;
      var s1, s2 := BuildStations(drives, logger, clock, cfg);
      station1, station2 := s1, s2;
      var c1, c2, c3, c4 := BuildCorners(drives, reservations, logger, clock, cfg);
      corner1, corner2, corner3, corner4 := c1, c2, c3, c4;
    }

    /** Corners 1 and 3, fed by the main conveyors. */
    method ToConveyorCorner(c: CornerId, barrier: Barrier, t1: real, t2: real)
      requires Valid() && (c == 1 || c == 3)
      modifies Objects()
      ensures Valid()
      ensures View() == WithCorner(old(View()), c, C.React(cfg, c, CornerAt(old(View()), c), barrier, t1, t2))
    {
      hide DataLogger.Valid, CollisionManager.Valid, CollisionManager.View, TimerService.View, MotorController.View;
      hide CornerController.Fsm, StationController.Fsm;
      hide C.React;
      if c == 1 {
        corner1.ProcessEvent(barrier, t1, t2);
      } else {
        corner3.ProcessEvent(barrier, t1, t2);
      }
    }

    /** Corners 2 and 4, fed by the stations. */
    method ToStationCorner(c: CornerId, barrier: Barrier, t1: real, t2: real)
      requires Valid() && (c == 2 || c == 4)
      modifies Objects()
      ensures Valid()
      ensures View() == WithCorner(old(View()), c, C.React(cfg, c, CornerAt(old(View()), c), barrier, t1, t2))
    {
      hide DataLogger.Valid, CollisionManager.Valid, CollisionManager.View, TimerService.View, MotorController.View;
      hide CornerController.Fsm, StationController.Fsm;
      hide C.React;
      if c == 2 {
        corner2.ProcessEvent(barrier, t1, t2);
      } else {
        corner4.ProcessEvent(barrier, t1, t2);
      }
    }

    method ToStation(n: StationId, d: Delivery, t1: real, t2: real)
      requires Valid()
      modifies Objects()
      ensures Valid()
      ensures View() == WithStation(old(View()), n, S.React(cfg, n, StationAt(old(View()), n), d, t1, t2))
    {
      hide DataLogger.Valid, CollisionManager.Valid, CollisionManager.View, TimerService.View, MotorController.View;
      hide CornerController.Fsm, StationController.Fsm;
      hide S.React;
      if n == 1 {
        station1.ProcessEvent(d, t1, t2, collisionMgr.View());
      } else {
        station2.ProcessEvent(d, t1, t2, collisionMgr.View());
      }
    }

    /** A timer of corner 1 or 3 fires. */
    method WakeConveyorCorner(c: CornerId, callback: Callback, t1: real, t2: real)
      requires Valid() && (c == 1 || c == 3) && C.OfCorner(callback, c)
      modifies Objects()
      ensures Valid()
      ensures View() == WithCorner(old(View()), c, C.Awake(cfg, c, CornerAt(old(View()), c), callback, t1, t2))
    {
      hide DataLogger.Valid, CollisionManager.Valid, CollisionManager.View, TimerService.View, MotorController.View;
      hide CornerController.Fsm, StationController.Fsm;
      hide C.Awake;
      if c == 1 {
        corner1.Wake(callback, t1, t2);
      } else {
        corner3.Wake(callback, t1, t2);
      }
    }

    /** A timer of corner 2 or 4 fires. */
    method WakeStationCorner(c: CornerId, callback: Callback, t1: real, t2: real)
      requires Valid() && (c == 2 || c == 4) && C.OfCorner(callback, c)
      modifies Objects()
      ensures Valid()
      ensures View() == WithCorner(old(View()), c, C.Awake(cfg, c, CornerAt(old(View()), c), callback, t1, t2))
    {
      hide DataLogger.Valid, CollisionManager.Valid, CollisionManager.View, TimerService.View, MotorController.View;
      hide CornerController.Fsm, StationController.Fsm;
      hide C.Awake;
      if c == 2 {
        corner2.Wake(callback, t1, t2);
      } else {
        corner4.Wake(callback, t1, t2);
      }
    }

    method WakeStation(n: StationId, callback: Callback, now: real)
      requires Valid() && S.OfStation(callback, n)
      modifies Objects()
      ensures Valid()
      ensures View() == WithStation(old(View()), n, S.Awake(cfg, n, StationAt(old(View()), n), callback, now))
    {
      hide DataLogger.Valid, CollisionManager.Valid, CollisionManager.View, TimerService.View, MotorController.View;
      hide CornerController.Fsm, StationController.Fsm;
      hide S.Awake;
      if n == 1 {
        station1.Wake(callback, now, collisionMgr.View());
      } else {
        station2.Wake(callback, now, collisionMgr.View());
      }
    }

    /** Look the state machine up and hand it the event; without one the event is dropped. */
    method DeliverEvent(d: Delivery, t1: real, t2: real)
      requires Valid()
      modifies Objects()
      ensures Valid()
      ensures View() == Step(cfg, old(View()), Deliver(d, t1, t2))
    {
      hide FsmMap.View, FsmMap.Valid, C.React, C.Awake, S.React, S.Awake;
      match d.event.place
      case AtStation(n) =>
        if 1 <= n <= 2 {
          ToStation(n, d, t1, t2);
        }
      case AtCorner(c) =>
        if c == 1 || c == 3 {
          ToConveyorCorner(c, d.event.barrier, t1, t2);
        } else if c == 2 || c == 4 {
          ToStationCorner(c, d.event.barrier, t1, t2);
        }
      case _ =>
    }

    /** A timer leaves the pool and its callback runs. */
    method FireTimer(id: nat, t1: real, t2: real)
      requires Valid()
      modifies Objects()
      ensures Valid()
      ensures View() == Step(cfg, old(View()), Fire(id, t1, t2))
    {
      hide DataLogger.Valid, CollisionManager.Valid, CollisionManager.View, MotorController.View;
      hide CornerController.Fsm, StationController.Fsm, C.Awake, S.Awake;
      if id !in timers.live {
        return;
      }
      var callback := timers.live[id].callback;
      timers.Cancel(id);
      match callback
      case ProcessDone(n) => WakeStation(n, callback, t1);
      case ExitDone(n, _) => WakeStation(n, callback, t1);
      case ApproachDone(c) => WakeCorner(c, callback, t1, t2);
      case RetryPush(c) => WakeCorner(c, callback, t1, t2);
      case HandshakeLapsed(c) => WakeCorner(c, callback, t1, t2);
    }

    method WakeCorner(c: CornerId, callback: Callback, t1: real, t2: real)
      requires Valid() && C.OfCorner(callback, c)
      modifies Objects()
      ensures Valid()
      ensures View() == WithCorner(old(View()), c, C.Awake(cfg, c, CornerAt(old(View()), c), callback, t1, t2))
    {
      hide FsmMap.View, FsmMap.Valid, C.React, C.Awake, S.React, S.Awake;
      if c == 1 || c == 3 {
        WakeConveyorCorner(c, callback, t1, t2);
      } else {
        WakeStationCorner(c, callback, t1, t2);
      }
    }

    method ReportError(unit: Unit, part: string, error: Activity, t1: real, ghost t2: real)
      requires Valid() && IsReport(error)
      modifies Objects()
      ensures Valid()
      ensures View() == Step(cfg, old(View()), Report(unit, part, error, t1, t2))
    {
      dataLogger.LogEvent(part, unit, error, t1);
    }

    method Perform(a: Action)
      requires Valid()
      modifies Objects()
      ensures Valid() && View() == Step(cfg, old(View()), a)
    {
      hide FsmMap.View, FsmMap.Valid, C.React, C.Awake, S.React, S.Awake;
      match a
      case Deliver(d, t1, t2) => DeliverEvent(d, t1, t2);
      case Fire(id, t1, t2) => FireTimer(id, t1, t2);
      case Report(unit, part, error, t1, t2) =>
        if IsReport(error) {
          ReportError(unit, part, error, t1, t2);
        }
    }
  }
}
