/** The mutable corner controller of corner_controller.py, handler by handler. */
module CornerControl {
  import opened Basics
  import opened MotorControl
  import opened TimerPool
  import opened Collision
  import opened SharedState
  import opened DataLog
  import opened Corners

  class CornerController {
    const num: CornerId
    const cfg: Config
    const motors: MotorController
    const collisionMgr: CollisionManager
    const dataLogger: DataLogger
    const timers: TimerService
    var state: CornerState
    var approachTimer: Option<nat>
    var handshakeTimer: Option<nat>

    ghost function Footprint(): set<object> {
      {motors.throttle, collisionMgr, dataLogger, timers}
    }

    ghost predicate Valid()
      reads Footprint()
    {
      motors.Valid() && collisionMgr.Valid() && dataLogger.Valid()
    }

    ghost function SharedView(): Shared
      requires Valid()
      reads Footprint()
    {
      Shared(collisionMgr.View(), timers.View(), motors.View(), dataLogger.log)
    }

    ghost function Fsm(): CornerFsm
      reads this
    {
      CornerFsm(state, approachTimer, handshakeTimer)
    }

    ghost function View(): CornerView
      requires Valid()
      reads this, Footprint()
    {
      CornerView(Fsm(), SharedView())
    }

    constructor (num: CornerId, motors: MotorController, collisionMgr: CollisionManager,
                 dataLogger: DataLogger, timers: TimerService, cfg: Config)
      requires motors.Valid() && collisionMgr.Valid() && dataLogger.Valid()
      modifies motors.throttle
      ensures this.num == num && this.cfg == cfg
      ensures this.motors == motors && this.collisionMgr == collisionMgr
      ensures this.dataLogger == dataLogger && this.timers == timers
      ensures Valid()
      ensures View().fsm == CornerFsm(Idle, None, None)
      ensures View().sh == DriveFeed(num, old(Shared(collisionMgr.View(), timers.View(), motors.View(), dataLogger.log)),
                                     cfg.conveyorSpeed)
    {
      this.num, this.cfg := num, cfg;
      this.motors, this.collisionMgr, this.dataLogger, this.timers := motors, collisionMgr, dataLogger, timers;
      state, approachTimer, handshakeTimer := Idle, None, None;
      new;
      StartFeedConveyor();
    }

    method ProcessEvent(barrier: Barrier, t1: real, t2: real)
      requires Valid()
      modifies this, Footprint()
      ensures Valid() && View() == React(cfg, num, old(View()), barrier, t1, t2)
    {
      hide DataLogger.Valid, CollisionManager.Valid, CollisionManager.View, TimerService.View, MotorController.View;
      hide CornerController.SharedView, MayGrant;
      if state == Idle {
        HandleIdle(barrier, t1);
      } else if state == Extending {
        HandleExtending(barrier, t1);
      } else if state == WaitingForConfirmation {
        HandleWaitingForConfirmation(barrier);
      } else if state == Retracting {
        HandleRetracting(barrier, t1, t2);
      }
    }

    method HandleIdle(barrier: Barrier, now: real)
      requires Valid()
      modifies this, Footprint()
      ensures Valid() && View() == Corners.HandleIdle(cfg, num, old(View()), barrier, now)
    {
      hide DataLogger.Valid, CollisionManager.Valid, CollisionManager.View, TimerService.View, MotorController.View;
      if barrier != CornerPos(num) {
        return;
      }
      var feed := FeedMotor(num);
      if feed.Some? {
        var safe := collisionMgr.IsConveyorSafeToStop(feed.value);
        if !safe {
          return;
        }
        StopFeedConveyor();
      }
      var id := timers.Start(ApproachDone(num), now + cfg.finalDelay);
      approachTimer := Some(id);
      state := FinalApproach;
    }

    method FinalApproachComplete(t1: real, t2: real)
      requires Valid()
      modifies this, Footprint()
      ensures Valid() && View() == ApproachComplete(cfg, num, old(View()), t1, t2)
    {
      hide DataLogger.Valid, CollisionManager.Valid, CollisionManager.View, TimerService.View, MotorController.View;
      hide CornerController.SharedView, MayGrant;
      state := ReadyToPush;
      TryPush(t1, t2);
    }

    method TryPush(t1: real, t2: real)
      requires Valid()
      modifies this, Footprint()
      ensures Valid() && View() == Corners.TryPush(cfg, num, old(View()), t1, t2)
    {
      hide DataLogger.Valid, CollisionManager.Valid, CollisionManager.View, TimerService.View, MotorController.View;
      hide MayGrant, Reserve;
      var granted := collisionMgr.RequestCorner(num, t1);
      if granted {
        state := Extending;
        ExtendPusher(t2);
      } else {
        var id := timers.Start(RetryPush(num), t2 + RETRY_DELAY);
      }
    }

    method ExtendPusher(now: real)
      requires Valid()
      modifies Footprint()
      ensures Valid()
      ensures SharedView() == old(SharedView()).Logged(CornerUnit(num), UNKNOWN_PART, PushStart, now)
                              .Drive(PusherMotor(num), cfg.cornerSpeed)
    {
      hide DataLogger.Valid, CollisionManager.Valid, CollisionManager.View, TimerService.View, MotorController.View;
      dataLogger.LogEvent(UNKNOWN_PART, CornerUnit(num), PushStart, now);
      motors.SetSpeed(PusherMotor(num), cfg.cornerSpeed);
    }

    method HandleExtending(barrier: Barrier, now: real)
      requires Valid()
      modifies this, Footprint()
      ensures Valid() && View() == Corners.HandleExtending(cfg, num, old(View()), barrier, now)
    {
      hide DataLogger.Valid, CollisionManager.Valid, CollisionManager.View, TimerService.View, MotorController.View;
      if barrier == CornerExt(num) {
        motors.Stop(PusherMotor(num));
        state := Pushing;
        collisionMgr.SetHandshakeWait(num);
        var id := timers.Start(HandshakeLapsed(num), now + cfg.handshakeTimeout);
        handshakeTimer := Some(id);
        state := WaitingForConfirmation;
      }
    }

    method HandleWaitingForConfirmation(barrier: Barrier)
      requires Valid()
      modifies this, Footprint()
      ensures Valid() && View() == HandleWaiting(cfg, num, old(View()), barrier)
    {
      hide DataLogger.Valid, CollisionManager.Valid, CollisionManager.View, TimerService.View, MotorController.View;
      if barrier == Confirmation(num) {
        if handshakeTimer.Some? {
          timers.Cancel(handshakeTimer.value);
        }
        collisionMgr.ClearHandshakeWait(num);
        state := Retracting;
        motors.SetSpeed(PusherMotor(num), -cfg.cornerSpeed);
      }
    }

    method HandshakeTimedOut()
      requires Valid()
      modifies Footprint()
      ensures Valid() && View() == HandshakeTimeout(num, old(View()))
    {
      hide DataLogger.Valid, CollisionManager.Valid, CollisionManager.View, TimerService.View, MotorController.View;
      collisionMgr.ClearHandshakeWait(num);
    }

    method HandleRetracting(barrier: Barrier, t1: real, t2: real)
      requires Valid()
      modifies this, Footprint()
      ensures Valid() && View() == Corners.HandleRetracting(cfg, num, old(View()), barrier, t1, t2)
    {
      hide DataLogger.Valid, CollisionManager.Valid, CollisionManager.View, TimerService.View, MotorController.View;
      if barrier == CornerRet(num) {
        FinishPush(t1, t2);
        StartFeedConveyor();
        state := Idle;
      }
    }

    method FinishPush(t1: real, t2: real)
      requires Valid()
      modifies Footprint()
      ensures Valid()
      ensures SharedView() == PushFinished(num, old(SharedView()), t1, t2)
    {
      hide DataLogger.Valid, CollisionManager.Valid, CollisionManager.View, TimerService.View, MotorController.View;
      motors.Stop(PusherMotor(num));
      dataLogger.LogEvent(UNKNOWN_PART, CornerUnit(num), PushComplete, t1);
      collisionMgr.ReleaseCorner(num, t2);
    }

    method StartFeedConveyor()
      requires Valid()
      modifies motors.throttle
      ensures Valid() && SharedView() == DriveFeed(num, old(SharedView()), cfg.conveyorSpeed)
    {
      hide DataLogger.Valid, CollisionManager.Valid, CollisionManager.View, TimerService.View, MotorController.View;
      var feed := FeedMotor(num);
      if feed.Some? {
        motors.SetSpeed(feed.value, cfg.conveyorSpeed);
      }
    }

    method StopFeedConveyor()
      requires Valid()
      modifies motors.throttle
      ensures Valid() && SharedView() == DriveFeed(num, old(SharedView()), 0.0)
    {
      hide DataLogger.Valid, CollisionManager.Valid, CollisionManager.View, TimerService.View, MotorController.View;
      var feed := FeedMotor(num);
      if feed.Some? {
        motors.Stop(feed.value);
      }
    }

    /** A timer of this corner fires. */
    method Wake(callback: Callback, t1: real, t2: real)
      requires Valid() && OfCorner(callback, num)
      modifies this, Footprint()
      ensures Valid() && View() == Awake(cfg, num, old(View()), callback, t1, t2)
    {
      hide DataLogger.Valid, CollisionManager.Valid, CollisionManager.View, TimerService.View, MotorController.View;
      hide CornerController.SharedView, MayGrant;
      if callback == ApproachDone(num) {
        FinalApproachComplete(t1, t2);
      } else if callback == RetryPush(num) {
        TryPush(t1, t2);
      } else {
        HandshakeTimedOut();
      }
    }
  }
}
