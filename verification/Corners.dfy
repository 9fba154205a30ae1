/** The corner state machine of corner_controller.py as functions: what one event or one timer
    does to a corner and to the shared objects. `t1` and `t2` are the first and the second
    clock reading of the step. */
module Corners {
  import opened Basics
  import opened TimerPool
  import opened Collision
  import opened SharedState

  datatype CornerState =
    | Idle
    | FinalApproach
    | ReadyToPush
    | Extending
    | Pushing
    | WaitingForConfirmation
    | Retracting

  datatype CornerFsm = CornerFsm(state: CornerState, approachTimer: Option<nat>, handshakeTimer: Option<nat>)

  /** One corner together with the objects it shares. */
  datatype CornerView = CornerView(fsm: CornerFsm, sh: Shared)

  const RETRY_DELAY := 0.2

  function PusherMotor(c: CornerId): int {
    4 + c
  }

  /** The main conveyor that feeds a corner, if one does. */
  function FeedMotor(c: CornerId): Option<int> {
    if c == 1 then Some(1) else if c == 3 then Some(2) else None
  }

  function Confirmation(c: CornerId): Barrier {
    if c == 1 then StationEntry(1)
    else if c == 2 then ConveyorStart(1)
    else if c == 3 then StationEntry(2)
    else ConveyorStart(2)
  }

  function DriveFeed(c: CornerId, sh: Shared, speed: real): Shared {
    if FeedMotor(c).Some? then sh.Drive(FeedMotor(c).value, speed) else sh
  }

  function HandleIdle(cfg: Config, c: CornerId, v: CornerView, barrier: Barrier, t1: real): CornerView {
    if barrier != CornerPos(c) then v
    else if FeedMotor(c).Some? && !SafeToStop(v.sh.manager, FeedMotor(c).value) then v
    else
      CornerView(
        v.fsm.(state := FinalApproach, approachTimer := Some(v.sh.timers.next)),
        DriveFeed(c, v.sh, 0.0).Timed(ApproachDone(c), t1 + cfg.finalDelay))
  }

  function TryPush(cfg: Config, c: CornerId, v: CornerView, t1: real, t2: real): CornerView {
    if MayGrant(v.sh.manager, c, t1) then
      var reserved := v.sh.(manager := Reserve(v.sh.manager, c));
      CornerView(
        v.fsm.(state := Extending),
        reserved.Logged(CornerUnit(c), UNKNOWN_PART, PushStart, t2).Drive(PusherMotor(c), cfg.cornerSpeed))
    else
      v.(sh := v.sh.Timed(RetryPush(c), t2 + RETRY_DELAY))
  }

  function ApproachComplete(cfg: Config, c: CornerId, v: CornerView, t1: real, t2: real): CornerView {
    TryPush(cfg, c, v.(fsm := v.fsm.(state := ReadyToPush)), t1, t2)
  }

  function HandleExtending(cfg: Config, c: CornerId, v: CornerView, barrier: Barrier, t1: real): CornerView {
    if barrier != CornerExt(c) then v
    else
      var halted := v.sh.Drive(PusherMotor(c), 0.0);
      CornerView(
        v.fsm.(state := WaitingForConfirmation, handshakeTimer := Some(v.sh.timers.next)),
        halted.(manager := SetWait(halted.manager, c, true)).Timed(HandshakeLapsed(c), t1 + cfg.handshakeTimeout))
  }

  function HandleWaiting(cfg: Config, c: CornerId, v: CornerView, barrier: Barrier): CornerView {
    if barrier != Confirmation(c) then v
    else
      var timers := if v.fsm.handshakeTimer.Some? then v.sh.timers.Cancel(v.fsm.handshakeTimer.value)
                    else v.sh.timers;
      CornerView(
        v.fsm.(state := Retracting),
        v.sh.(timers := timers, manager := SetWait(v.sh.manager, c, false)).Drive(PusherMotor(c), -cfg.cornerSpeed))
  }

  /** A lapsed handshake clears the flag; the corner stays reserved and keeps waiting. */
  function HandshakeTimeout(c: CornerId, v: CornerView): CornerView {
    v.(sh := v.sh.(manager := SetWait(v.sh.manager, c, false)))
  }

  /** The pusher is back: motor off, completion logged, corner released. */
  function PushFinished(c: CornerId, sh: Shared, t1: real, t2: real): Shared {
    var done := sh.Drive(PusherMotor(c), 0.0).Logged(CornerUnit(c), UNKNOWN_PART, PushComplete, t1);
    done.(manager := Release(done.manager, c, t2))
  }

  function HandleRetracting(cfg: Config, c: CornerId, v: CornerView, barrier: Barrier, t1: real, t2: real): CornerView {
    if barrier != CornerRet(c) then v
    else
      CornerView(v.fsm.(state := Idle), DriveFeed(c, PushFinished(c, v.sh, t1, t2), cfg.conveyorSpeed))
  }

  /** `process_event`. */
  function React(cfg: Config, c: CornerId, v: CornerView, barrier: Barrier, t1: real, t2: real): CornerView {
    match v.fsm.state
    case Idle => HandleIdle(cfg, c, v, barrier, t1)
    case Extending => HandleExtending(cfg, c, v, barrier, t1)
    case WaitingForConfirmation => HandleWaiting(cfg, c, v, barrier)
    case Retracting => HandleRetracting(cfg, c, v, barrier, t1, t2)
    case _ => v
  }

  predicate OfCorner(callback: Callback, c: CornerId) {
    callback == ApproachDone(c) || callback == RetryPush(c) || callback == HandshakeLapsed(c)
  }

  /** The body of a timer callback; no callback looks at the state it fires in. */
  function Awake(cfg: Config, c: CornerId, v: CornerView, callback: Callback, t1: real, t2: real): CornerView
    requires OfCorner(callback, c)
  {
    match callback
    case ApproachDone(_) => ApproachComplete(cfg, c, v, t1, t2)
    case RetryPush(_) => TryPush(cfg, c, v, t1, t2)
    case _ => HandshakeTimeout(c, v)
  }
}
