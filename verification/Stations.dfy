/** The station state machine of station_controller.py as functions of one event or one timer. */
module Stations {
  import opened Basics
  import opened TimerPool
  import opened SharedState

  datatype StationState = Idle | Entering | AdvancingToProcess | Processing | AdvancingToExit | Exiting

  datatype StationFsm = StationFsm(
    state: StationState,
    part: Option<string>,
    entryStamp: Option<real>,
    processTimer: Option<nat>)

  datatype StationView = StationView(fsm: StationFsm, sh: Shared)

  const EXIT_DELAY := 1.0

  function StationMotor(n: StationId): int {
    2 + n
  }

  /** Station 2 runs in reverse. */
  function StationSpeed(cfg: Config, n: StationId): real {
    if n == 1 then cfg.stationSpeed else -cfg.stationSpeed
  }

  /** The part a log call names; every state that logs one has a current part. */
  function PartOf(fsm: StationFsm): string {
    if fsm.part.Some? then fsm.part.value else ""
  }

  function HandleIdle(cfg: Config, n: StationId, v: StationView, d: Delivery, t1: real): StationView {
    if d.event.barrier != StationEntry(n) then v
    else if d.part.None? then v.(sh := v.sh.Logged(StationUnit(n), UNKNOWN_PART, ErrorNoPartId, t1))
    else
      StationView(
        v.fsm.(state := Entering, part := d.part, entryStamp := Some(d.event.stamp)),
        v.sh.Logged(StationUnit(n), d.part.value, Enter, t1).Drive(StationMotor(n), StationSpeed(cfg, n)))
  }

  function HandleEntering(cfg: Config, n: StationId, v: StationView, barrier: Barrier, t1: real, t2: real): StationView {
    if barrier != StationProcess(n) then v
    else
      StationView(
        v.fsm.(state := Processing, processTimer := Some(v.sh.timers.next)),
        v.sh.Drive(StationMotor(n), 0.0)
            .Logged(StationUnit(n), PartOf(v.fsm), ProcessStart, t1)
            .Timed(ProcessDone(n), t2 + cfg.ProcessTime(n)))
  }

  function ProcessingComplete(cfg: Config, n: StationId, v: StationView, t1: real): StationView {
    StationView(
      v.fsm.(state := AdvancingToExit),
      v.sh.Logged(StationUnit(n), PartOf(v.fsm), ProcessEnd, t1).Drive(StationMotor(n), StationSpeed(cfg, n)))
  }

  function HandleAdvancingToExit(cfg: Config, n: StationId, v: StationView, event: SensorEvent, t1: real): StationView {
    if event.barrier != StationExit(n) then v
    else
      StationView(
        v.fsm.(state := Exiting),
        v.sh.Drive(StationMotor(n), 0.0)
            .Drive(StationMotor(n), StationSpeed(cfg, n))
            .Timed(ExitDone(n, event.stamp), t1 + EXIT_DELAY))
  }

  /** The exit is logged only for a part whose name is not empty. */
  function ExitComplete(n: StationId, v: StationView, t1: real): StationView {
    var halted := v.sh.Drive(StationMotor(n), 0.0);
    StationView(
      v.fsm.(state := Idle, part := None, entryStamp := None),
      if v.fsm.part.Some? && v.fsm.part.value != "" then
        halted.Logged(StationUnit(n), v.fsm.part.value, Exit, t1)
      else halted)
  }

  /** `process_event`. */
  function React(cfg: Config, n: StationId, v: StationView, d: Delivery, t1: real, t2: real): StationView {
    match v.fsm.state
    case Idle => HandleIdle(cfg, n, v, d, t1)
    case Entering => HandleEntering(cfg, n, v, d.event.barrier, t1, t2)
    case AdvancingToExit => HandleAdvancingToExit(cfg, n, v, d.event, t1)
    case _ => v
  }

  predicate OfStation(callback: Callback, n: StationId) {
    callback == ProcessDone(n) || (callback.ExitDone? && callback.n == n)
  }

  function Awake(cfg: Config, n: StationId, v: StationView, callback: Callback, t1: real): StationView
    requires OfStation(callback, n)
  {
    if callback.ProcessDone? then ProcessingComplete(cfg, n, v, t1) else ExitComplete(n, v, t1)
  }
}
