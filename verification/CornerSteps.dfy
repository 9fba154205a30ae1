/** What each step of a run does to a corner, in terms of barriers, motors, delays and log entries:
    when the corner leaves a state, and what has changed when it does. */
module CornerSteps {
  import opened Basics
  import opened TimerPool
  import opened SharedState
  import opened Plant
  import opened PlantInvariant
  import C = Corners
  import S = Stations
  import CI = CornerInvariant
  import Collision

  /** Throttle of one of the eight motors. */
  function Motor(p: Plant, motor: int): real
    requires 1 <= motor <= 8
  {
    p.sh.throttle[motor - 1]
  }

  /** The step delivers this barrier to corner `c`. */
  predicate Receives(a: Action, c: CornerId, barrier: Barrier) {
    a.Deliver? && a.delivery.event.place == AtCorner(c) && a.delivery.event.barrier == barrier
  }

  /** The step fires a running timer with this callback. */
  predicate Fires(p: Plant, a: Action, callback: Callback) {
    a.Fire? && a.id in p.sh.timers.live && p.sh.timers.live[a.id].callback == callback
  }

  /** S1_ENTRY, M1_START, S2_ENTRY and M2_START confirm the pushes of corners 1 to 4. */
  predicate Confirmed(a: Action, c: CornerId) {
    Receives(a, c, if c == 1 then StationEntry(1) else if c == 2 then ConveyorStart(1)
                   else if c == 3 then StationEntry(2) else ConveyorStart(2))
  }

  /** Free, two seconds after its last use, and both neighbours on the loop free. */
  predicate Available(p: Plant, c: CornerId, now: real) {
    var m := p.sh.manager;
    && !m.occupied.At(c) && now - m.lastUsed.At(c) >= 2.0
    && (c == 1 || c == 3 ==> !m.occupied.c2 && !m.occupied.c4)
    && (c == 2 || c == 4 ==> !m.occupied.c1 && !m.occupied.c3)
  }

  /** Corner 1 may not stop M1 while corner 2 waits, nor corner 3 M2 while corner 4 does. */
  predicate MayStop(p: Plant, c: CornerId) {
    (c == 1 ==> !p.sh.manager.waiting.c2) && (c == 3 ==> !p.sh.manager.waiting.c4)
  }

  predicate SameUse(p: Plant, p': Plant, c: CornerId) {
    && p'.sh.manager.occupied.At(c) == p.sh.manager.occupied.At(c)
    && p'.sh.manager.lastUsed.At(c) == p.sh.manager.lastUsed.At(c)
    && p'.sh.manager.waiting.At(c) == p.sh.manager.waiting.At(c)
  }

  predicate Stays(p: Plant, p': Plant, c: CornerId) {
    p'.corners.At(c) == p.corners.At(c) && SameUse(p, p', c) && Motor(p', 4 + c) == Motor(p, 4 + c)
  }

  /** The part has arrived: the feeding conveyor stops and the approach timer starts. */
  predicate ApproachBegins(cfg: Config, p: Plant, a: Action, p': Plant, c: CornerId) {
    && p'.corners.At(c).state == C.FinalApproach
    && (c == 1 ==> Motor(p', 1) == 0.0) && (c == 3 ==> Motor(p', 2) == 0.0)
    && p'.sh.timers == p.sh.timers.Start(ApproachDone(c), a.t1 + cfg.finalDelay)
    && p'.sh.manager == p.sh.manager && p'.sh.log == p.sh.log
  }

  /** A push attempt: granted, logged and started when the corner is available, retried in 0.2 s when not. */
  predicate Attempts(cfg: Config, p: Plant, a: Action, p': Plant, c: CornerId) {
    && a.Fire?
    && if Available(p, c, a.t1) then
      && p'.corners.At(c).state == C.Extending
      && p'.sh.manager == p.sh.manager.(occupied := p.sh.manager.occupied.With(c, true))
      && Motor(p', 4 + c) == cfg.cornerSpeed
      && p'.sh.log == p.sh.log + [Entry(a.t2, CornerUnit(c), "UNKNOWN", PushStart)]
      && p'.sh.timers == p.sh.timers.Cancel(a.id)
    else
      && p'.corners.At(c).state == C.ReadyToPush
      && p'.sh.manager == p.sh.manager && p'.sh.throttle == p.sh.throttle && p'.sh.log == p.sh.log
      && p'.sh.timers == p.sh.timers.Cancel(a.id).Start(RetryPush(c), a.t2 + 0.2)
  }

  /** The pusher is out: it stops, and the wait for the confirmation begins. */
  predicate HandshakeBegins(cfg: Config, p: Plant, a: Action, p': Plant, c: CornerId) {
    && p'.corners.At(c).state == C.WaitingForConfirmation
    && Motor(p', 4 + c) == 0.0
    && p'.sh.manager == p.sh.manager.(waiting := p.sh.manager.waiting.With(c, true))
    && p'.sh.timers == p.sh.timers.Start(HandshakeLapsed(c), a.t1 + cfg.handshakeTimeout)
    && p'.sh.log == p.sh.log
  }

  /** The part has arrived next door: the pusher goes back and the handshake is over. */
  predicate RetractionBegins(cfg: Config, p: Plant, p': Plant, c: CornerId) {
    && p'.corners.At(c).state == C.Retracting
    && Motor(p', 4 + c) == -cfg.cornerSpeed
    && p'.sh.manager == p.sh.manager.(waiting := p.sh.manager.waiting.With(c, false))
    && (forall id :: id in p'.sh.timers.live ==> p'.sh.timers.live[id].callback != HandshakeLapsed(c))
    && p'.sh.log == p.sh.log
  }

  /** A lapsed handshake clears the flag and nothing else. */
  predicate Lapses(p: Plant, a: Action, p': Plant, c: CornerId) {
    && a.Fire? && p'.corners == p.corners && p'.stations == p.stations
    && p'.sh == p.sh.(manager := p.sh.manager.(waiting := p.sh.manager.waiting.With(c, false)),
                      timers := p.sh.timers.Cancel(a.id))
  }

  /** The pusher is back: it stops, the push is logged, the corner freed and the conveyor restarted. */
  predicate PushEnds(cfg: Config, p: Plant, a: Action, p': Plant, c: CornerId) {
    && p'.corners.At(c).state == C.Idle
    && Motor(p', 4 + c) == 0.0
    && (c == 1 ==> Motor(p', 1) == cfg.conveyorSpeed) && (c == 3 ==> Motor(p', 2) == cfg.conveyorSpeed)
    && p'.sh.manager == p.sh.manager.(occupied := p.sh.manager.occupied.With(c, false),
                                      lastUsed := p.sh.manager.lastUsed.With(c, a.t2))
    && p'.sh.log == p.sh.log + [Entry(a.t1, CornerUnit(c), "UNKNOWN", PushComplete)]
    && p'.sh.timers == p.sh.timers
  }

  /** Which steps move a corner out of its state, and what they do. */
  predicate CornerStep(cfg: Config, p: Plant, a: Action, p': Plant, c: CornerId) {
    match p.corners.At(c).state
    case Idle =>
      if Receives(a, c, CornerPos(c)) && MayStop(p, c) then ApproachBegins(cfg, p, a, p', c) else Stays(p, p', c)
    case FinalApproach => if Fires(p, a, ApproachDone(c)) then Attempts(cfg, p, a, p', c) else Stays(p, p', c)
    case ReadyToPush => if Fires(p, a, RetryPush(c)) then Attempts(cfg, p, a, p', c) else Stays(p, p', c)
    case Extending =>
      if Receives(a, c, CornerExt(c)) then HandshakeBegins(cfg, p, a, p', c) else Stays(p, p', c)
    case WaitingForConfirmation =>
      if Confirmed(a, c) then RetractionBegins(cfg, p, p', c)
      else if Fires(p, a, HandshakeLapsed(c)) then Lapses(p, a, p', c)
      else Stays(p, p', c)
    case Retracting => if Receives(a, c, CornerRet(c)) then PushEnds(cfg, p, a, p', c) else Stays(p, p', c)
    case Pushing => false
  }

  // ---------------------------------------------------------------- own deliveries

  lemma IdleReceives(cfg: Config, p: Plant, a: Action, c: CornerId)
    requires cfg.Valid() && CI.CornerOk(cfg, c, p.corners.At(c), p.sh)
    requires a.Deliver? && a.delivery.event.place == AtCorner(c)
    requires p.corners.At(c).state == C.Idle
    ensures CornerStep(cfg, p, a, Step(cfg, p, a), c)
  {
  }

  lemma ExtendingReceives(cfg: Config, p: Plant, a: Action, c: CornerId)
    requires cfg.Valid() && CI.CornerOk(cfg, c, p.corners.At(c), p.sh)
    requires a.Deliver? && a.delivery.event.place == AtCorner(c)
    requires p.corners.At(c).state == C.Extending
    ensures CornerStep(cfg, p, a, Step(cfg, p, a), c)
  {
  }

  lemma WaitingReceives(cfg: Config, p: Plant, a: Action, c: CornerId)
    requires cfg.Valid() && CI.CornerOk(cfg, c, p.corners.At(c), p.sh)
    requires a.Deliver? && a.delivery.event.place == AtCorner(c)
    requires p.corners.At(c).state == C.WaitingForConfirmation
    ensures CornerStep(cfg, p, a, Step(cfg, p, a), c)
  {
    if Confirmed(a, c) {
      ConfirmationEndsTimer(cfg, p, a, c);
    }
  }

  lemma RetractingReceives(cfg: Config, p: Plant, a: Action, c: CornerId)
    requires cfg.Valid() && CI.CornerOk(cfg, c, p.corners.At(c), p.sh)
    requires a.Deliver? && a.delivery.event.place == AtCorner(c)
    requires p.corners.At(c).state == C.Retracting
    ensures CornerStep(cfg, p, a, Step(cfg, p, a), c)
  {
  }

  lemma CornerReceives(cfg: Config, p: Plant, a: Action, c: CornerId)
    requires cfg.Valid() && CI.CornerOk(cfg, c, p.corners.At(c), p.sh)
    requires a.Deliver? && a.delivery.event.place == AtCorner(c)
    ensures CornerStep(cfg, p, a, Step(cfg, p, a), c)
  {
    match p.corners.At(c).state
    case Idle => IdleReceives(cfg, p, a, c);
    case Extending => ExtendingReceives(cfg, p, a, c);
    case WaitingForConfirmation => WaitingReceives(cfg, p, a, c);
    case Retracting => RetractingReceives(cfg, p, a, c);
    case _ =>
  }

  lemma ConfirmationEndsTimer(cfg: Config, p: Plant, a: Action, c: CornerId)
    requires CI.Handshake(c, p.corners.At(c), p.sh) && p.corners.At(c).state == C.WaitingForConfirmation
    requires Confirmed(a, c)
    ensures forall id :: id in Step(cfg, p, a).sh.timers.live
                         ==> Step(cfg, p, a).sh.timers.live[id].callback != HandshakeLapsed(c)
  {
    var p' := Step(cfg, p, a);
    forall id | id in p'.sh.timers.live
      ensures p'.sh.timers.live[id].callback != HandshakeLapsed(c)
    {
      assert p.sh.timers.live[id].callback == HandshakeLapsed(c) ==> p.sh.timers.Runs(id, HandshakeLapsed(c));
    }
  }

  // -------------------------------------------------------------------- own timers

  lemma AvailableIsGranted(p: Plant, c: CornerId, now: real)
    ensures Available(p, c, now) <==> Collision.MayGrant(p.sh.manager, c, now)
  {
  }

  lemma CornerFires(cfg: Config, p: Plant, a: Action, c: CornerId)
    requires cfg.Valid() && CI.CornerOk(cfg, c, p.corners.At(c), p.sh)
    requires a.Fire? && a.id in p.sh.timers.live && C.OfCorner(p.sh.timers.live[a.id].callback, c)
    ensures CornerStep(cfg, p, a, Step(cfg, p, a), c)
  {
    AvailableIsGranted(p, c, a.t1);
    assert p.sh.timers.Runs(a.id, p.sh.timers.live[a.id].callback);
    hide Collision.MayGrant, Available, CI.CornerOk;
    FiringFindsState(cfg, p, a.id, c);
  }

  lemma FiringFindsState(cfg: Config, p: Plant, id: nat, c: CornerId)
    requires CI.CornerOk(cfg, c, p.corners.At(c), p.sh)
    requires id in p.sh.timers.live && C.OfCorner(p.sh.timers.live[id].callback, c)
    ensures match p.sh.timers.live[id].callback
            case ApproachDone(_) => p.corners.At(c).state == C.FinalApproach
            case RetryPush(_) => p.corners.At(c).state == C.ReadyToPush
            case _ => p.corners.At(c).state == C.WaitingForConfirmation
  {
    assert p.sh.timers.Runs(id, p.sh.timers.live[id].callback);
  }

  // ----------------------------------------------------------- steps of the others

  /** The step neither delivers to corner `c` nor fires one of its timers. */
  predicate Elsewhere(p: Plant, a: Action, c: CornerId) {
    match a
    case Deliver(d, _, _) => d.event.place != AtCorner(c)
    case Fire(id, _, _) => id !in p.sh.timers.live || !C.OfCorner(p.sh.timers.live[id].callback, c)
    case Report(_, _, _, _, _) => true
  }

  lemma OthersLeaveFsm(cfg: Config, p: Plant, a: Action, c: CornerId)
    requires Elsewhere(p, a, c)
    ensures Step(cfg, p, a).corners.At(c) == p.corners.At(c)
  {
    hide C.React, C.Awake, S.React, S.Awake;
  }

  lemma OthersLeaveUse(cfg: Config, p: Plant, a: Action, c: CornerId)
    requires Ok(cfg, p) && Elsewhere(p, a, c)
    ensures CI.Untouched(c, p.sh, Step(cfg, p, a).sh)
  {
    assert CI.CornerOk(cfg, c, p.corners.At(c), p.sh);
    match a
    case Deliver(d, t1, t2) =>
      match d.event.place {
        case AtStation(n) =>
          if 1 <= n <= 2 {
            StationReactSpares(cfg, n, StationAt(p, n), d, t1, t2, c);
          }
        case AtCorner(e) =>
          if 1 <= e <= 4 {
            assert CI.CornerOk(cfg, e, p.corners.At(e), p.sh);
            CI.ReactUntouched(cfg, e, CornerAt(p, e), d.event.barrier, t1, t2, c);
          }
        case _ =>
      }
    case Fire(id, t1, t2) =>
      if id in p.sh.timers.live {
        FireUntouches(cfg, p, id, t1, t2, c);
      }
    case Report(unit, part, error, t1, _) =>
      CI.BusyAppend(p.sh.log, Entry(t1, unit, part, error), CornerUnit(c));
  }

  lemma UntouchedStays(cfg: Config, p: Plant, a: Action, p': Plant, c: CornerId)
    requires CI.CornerOk(cfg, c, p.corners.At(c), p.sh) && Elsewhere(p, a, c)
    requires p'.corners.At(c) == p.corners.At(c) && CI.Untouched(c, p.sh, p'.sh)
    ensures CornerStep(cfg, p, a, p', c)
  {
  }

  /** In every run every step does to a corner exactly what its state calls for. */
  lemma CornerStepsExactly(cfg: Config, actions: seq<Action>, a: Action, c: CornerId)
    requires cfg.Valid()
    ensures CornerStep(cfg, Run(cfg, actions), a, Run(cfg, actions + [a]), c)
  {
    hide Step, CornerStep, CI.CornerOk, Ok, CI.Untouched;
    var p := Run(cfg, actions);
    RunAppend(cfg, actions, a);
    RunOk(cfg, actions);
    CornerHolds(cfg, p, c);
    if Elsewhere(p, a, c) {
      OthersLeaveFsm(cfg, p, a, c);
      OthersLeaveUse(cfg, p, a, c);
      UntouchedStays(cfg, p, a, Step(cfg, p, a), c);
    } else if a.Deliver? {
      CornerReceives(cfg, p, a, c);
    } else {
      CornerFires(cfg, p, a, c);
    }
  }
}
