/** All six state machines over the shared objects, as one step system. A step is one delivery,
    one timer firing, or one error report; handlers are atomic. */
module Plant {
  import opened Basics
  import opened MotorControl
  import opened TimerPool
  import opened Collision
  import opened SharedState
  import C = Corners
  import S = Stations

  datatype Plant = Plant(corners: PerCorner<C.CornerFsm>, stations: PerStation<S.StationFsm>, sh: Shared)

  /** `t1` and `t2` are the first and second clock reading of a step. */
  datatype Action =
    | Deliver(delivery: Delivery, t1: real, t2: real)
    | Fire(id: nat, t1: real, t2: real)
    | Report(unit: Unit, part: string, error: Activity, t1: real, t2: real)

  /** Corners 1 and 3 start their conveyors when they are built. */
  function Start(cfg: Config): Plant {
    var corner := C.CornerFsm(C.Idle, None, None);
    var station := S.StationFsm(S.Idle, None, None, None);
    Plant(PerCorner(corner, corner, corner, corner), PerStation(station, station),
          Shared(NO_RESERVATIONS, NO_TIMERS, STOPPED, [])
            .Drive(1, cfg.conveyorSpeed).Drive(2, cfg.conveyorSpeed))
  }

  function CornerAt(p: Plant, c: CornerId): C.CornerView {
    C.CornerView(p.corners.At(c), p.sh)
  }

  function WithCorner(p: Plant, c: CornerId, v: C.CornerView): Plant {
    p.(corners := p.corners.With(c, v.fsm), sh := v.sh)
  }

  function StationAt(p: Plant, n: StationId): S.StationView {
    S.StationView(p.stations.At(n), p.sh)
  }

  function WithStation(p: Plant, n: StationId, v: S.StationView): Plant {
    p.(stations := p.stations.With(n, v.fsm), sh := v.sh)
  }

  /** Delivery through the table of state machines; a place without one drops the event. */
  function DeliverStep(cfg: Config, p: Plant, d: Delivery, t1: real, t2: real): Plant {
    match d.event.place
    case AtStation(n) =>
      if 1 <= n <= 2 then WithStation(p, n, S.React(cfg, n, StationAt(p, n), d, t1, t2)) else p
    case AtCorner(c) =>
      if 1 <= c <= 4 then WithCorner(p, c, C.React(cfg, c, CornerAt(p, c), d.event.barrier, t1, t2)) else p
    case _ => p
  }

  function WakeStep(cfg: Config, p: Plant, callback: Callback, t1: real, t2: real): Plant {
    match callback
    case ProcessDone(n) => WithStation(p, n, S.Awake(cfg, n, StationAt(p, n), callback, t1))
    case ExitDone(n, _) => WithStation(p, n, S.Awake(cfg, n, StationAt(p, n), callback, t1))
    case ApproachDone(c) => WithCorner(p, c, C.Awake(cfg, c, CornerAt(p, c), callback, t1, t2))
    case RetryPush(c) => WithCorner(p, c, C.Awake(cfg, c, CornerAt(p, c), callback, t1, t2))
    case HandshakeLapsed(c) => WithCorner(p, c, C.Awake(cfg, c, CornerAt(p, c), callback, t1, t2))
  }

  function FireStep(cfg: Config, p: Plant, id: nat, t1: real, t2: real): Plant {
    if id !in p.sh.timers.live then p
    else
      var callback := p.sh.timers.live[id].callback;
      WakeStep(cfg, p.(sh := p.sh.Fired(id)), callback, t1, t2)
  }

  /** The errors that the event matcher reports. */
  predicate IsReport(a: Activity) {
    a.ErrorOrphan? || a == ErrorGhostNfc
  }

  function Step(cfg: Config, p: Plant, a: Action): Plant {
    match a
    case Deliver(d, t1, t2) => DeliverStep(cfg, p, d, t1, t2)
    case Fire(id, t1, t2) => FireStep(cfg, p, id, t1, t2)
    case Report(unit, part, error, t1, _) =>
      if IsReport(error) then p.(sh := p.sh.Logged(unit, part, error, t1)) else p
  }

  function Run(cfg: Config, actions: seq<Action>): Plant {
    if actions == [] then Start(cfg) else Step(cfg, Run(cfg, Front(actions)), Last(actions))
  }

  lemma RunAppend(cfg: Config, actions: seq<Action>, a: Action)
    ensures Run(cfg, actions + [a]) == Step(cfg, Run(cfg, actions), a)
  {
    AppendFront(actions, a);
  }

  /** The clock never runs backwards, within a step or between steps. */
  ghost predicate Forward(actions: seq<Action>, start: real) {
    && (forall i :: 0 <= i < |actions| ==> start <= actions[i].t1 <= actions[i].t2)
    && (forall i, j :: 0 <= i < j < |actions| ==> actions[i].t2 <= actions[j].t1)
  }
}
