/** The whole-run theorems about corners and stations, for arbitrary deliveries and timer order. */
module Protocol {
  import opened Basics
  import opened TimerPool
  import opened Collision
  import opened SharedState
  import opened Plant
  import opened PlantInvariant
  import C = Corners
  import S = Stations
  import CI = CornerInvariant
  import SI = StationInvariant
  import History

  // ------------------------------------------------------- reservations and pushers

  function Throttle(p: Plant, motor: int): real
    requires 1 <= motor <= 8
  {
    p.sh.throttle[motor - 1]
  }

  /** In every reachable state a corner is reserved exactly while it extends, waits or retracts;
      its pusher (motors 5 to 8) runs forward only while extending, backward only while retracting; adjacent pushers
      never move together; and the reserved corners lie on one diagonal. */
  lemma MutualExclusion(cfg: Config, actions: seq<Action>)
    requires cfg.Valid()
    ensures var p := Run(cfg, actions);
            && (forall c: CornerId :: p.sh.manager.occupied.At(c)
                  <==> p.corners.At(c).state in {C.Extending, C.Pushing, C.WaitingForConfirmation, C.Retracting})
            && (forall c: CornerId :: History.IsBusy(p.sh.log, CornerUnit(c)) <==> p.sh.manager.occupied.At(c))
            && (forall c: CornerId :: Throttle(p, 4 + c) > 0.0 <==> p.corners.At(c).state == C.Extending)
            && (forall c: CornerId :: Throttle(p, 4 + c) < 0.0 <==> p.corners.At(c).state == C.Retracting)
            && (forall c: CornerId, d: CornerId :: Adjacent(c, d) ==>
                  Throttle(p, 4 + c) == 0.0 || Throttle(p, 4 + d) == 0.0)
            && ((forall c: CornerId :: p.sh.manager.occupied.At(c) ==> c == 1 || c == 3)
                || (forall c: CornerId :: p.sh.manager.occupied.At(c) ==> c == 2 || c == 4))
  {
    RunOk(cfg, actions);
    var p := Run(cfg, actions);
    forall c: CornerId
      ensures Throttle(p, 4 + c) == CI.PusherSpeed(cfg, p.corners.At(c).state)
      ensures p.sh.manager.occupied.At(c)
              <==> p.corners.At(c).state in {C.Extending, C.Pushing, C.WaitingForConfirmation, C.Retracting}
      ensures History.IsBusy(p.sh.log, CornerUnit(c)) <==> p.sh.manager.occupied.At(c)
    {
      assert CI.CornerOk(cfg, c, p.corners.At(c), p.sh);
    }
    Diagonal(p.sh.manager);
    NoAdjacentMeans(p.sh.manager);
  }

  lemma Diagonal(m: Manager)
    requires NoAdjacent(m)
    ensures (forall c: CornerId :: m.occupied.At(c) ==> c == 1 || c == 3)
            || (forall c: CornerId :: m.occupied.At(c) ==> c == 2 || c == 4)
  {
  }

  // ------------------------------------------------------------- single-timer discipline

  function PushTimers(c: CornerId, timers: Timers): set<nat> {
    set id | id in timers.live && CI.IsPushTimer(timers.live[id].callback, c)
  }

  function HandshakeTimers(c: CornerId, timers: Timers): set<nat> {
    set id | id in timers.live && timers.live[id].callback == HandshakeLapsed(c)
  }

  function ProcessTimers(n: StationId, timers: Timers): set<nat> {
    set id | id in timers.live && timers.live[id].callback == ProcessDone(n)
  }

  function ExitTimers(n: StationId, timers: Timers): set<nat> {
    set id | id in timers.live && timers.live[id].callback.ExitDone? && timers.live[id].callback.n == n
  }

  lemma Singleton(s: set<nat>, x: nat)
    requires x in s && forall y :: y in s ==> y == x
    ensures |s| == 1
  {
    assert s == {x};
  }

  /** One approach or retry timer iff final approach or ready to push, one handshake timer iff
      the handshake flag is set, and the flag only while waiting. */
  ghost predicate CornerTimersExact(c: CornerId, fsm: C.CornerFsm, sh: Shared) {
    && |PushTimers(c, sh.timers)| == (if fsm.state in {C.FinalApproach, C.ReadyToPush} then 1 else 0)
    && |HandshakeTimers(c, sh.timers)| == (if sh.manager.waiting.At(c) then 1 else 0)
    && (sh.manager.waiting.At(c) ==> fsm.state == C.WaitingForConfirmation)
  }

  /** One process timer iff processing, one exit timer iff exiting. */
  ghost predicate StationTimersExact(n: StationId, fsm: S.StationFsm, timers: Timers) {
    && |ProcessTimers(n, timers)| == (if fsm.state == S.Processing then 1 else 0)
    && |ExitTimers(n, timers)| == (if fsm.state == S.Exiting then 1 else 0)
  }

  /** In every reachable state the number of live timers of each kind is fixed by the state. */
  lemma TimerDiscipline(cfg: Config, actions: seq<Action>)
    requires cfg.Valid()
    ensures var p := Run(cfg, actions);
            && (forall c: CornerId :: CornerTimersExact(c, p.corners.At(c), p.sh))
            && (forall n: StationId :: StationTimersExact(n, p.stations.At(n), p.sh.timers))
  {
    RunOk(cfg, actions);
    var p := Run(cfg, actions);
    forall c: CornerId
      ensures CornerTimersExact(c, p.corners.At(c), p.sh)
    {
      CornerTimers(cfg, c, p.corners.At(c), p.sh);
    }
    forall n: StationId
      ensures StationTimersExact(n, p.stations.At(n), p.sh.timers)
    {
      StationTimers(cfg, n, p.stations.At(n), p.sh);
    }
  }

  lemma CornerTimers(cfg: Config, c: CornerId, fsm: C.CornerFsm, sh: Shared)
    requires CI.CornerOk(cfg, c, fsm, sh)
    ensures CornerTimersExact(c, fsm, sh)
  {
    var pushes, handshakes := PushTimers(c, sh.timers), HandshakeTimers(c, sh.timers);
    if id: nat :| sh.timers.Runs(id, ApproachDone(c)) {
      Singleton(pushes, id);
    } else if id: nat :| sh.timers.Runs(id, RetryPush(c)) {
      Singleton(pushes, id);
    } else {
      CI.NotArmed(c, sh.timers);
      assert pushes == {};
    }
    assert forall y :: y in handshakes ==> sh.timers.Runs(y, HandshakeLapsed(c));
    if id: nat :| sh.timers.Runs(id, HandshakeLapsed(c)) {
      Singleton(handshakes, id);
    } else {
      assert handshakes == {};
    }
  }

  lemma StationTimers(cfg: Config, n: StationId, fsm: S.StationFsm, sh: Shared)
    requires SI.StationOk(cfg, n, fsm, sh)
    ensures StationTimersExact(n, fsm, sh.timers)
  {
    var processing, exiting := ProcessTimers(n, sh.timers), ExitTimers(n, sh.timers);
    assert forall y :: y in processing ==> sh.timers.Runs(y, ProcessDone(n));
    assert forall y :: y in exiting ==> SI.ExitRuns(n, sh.timers, y);
    if id: nat :| sh.timers.Runs(id, ProcessDone(n)) {
      Singleton(processing, id);
    } else {
      assert processing == {};
    }
    if id: nat :| SI.ExitRuns(n, sh.timers, id) {
      Singleton(exiting, id);
    } else {
      assert exiting == {};
    }
  }

  /** No callback looks at the state, yet every timer that can fire finds the state it was started for. */
  lemma CallbackFindsItsState(cfg: Config, actions: seq<Action>, id: nat)
    requires cfg.Valid() && id in Run(cfg, actions).sh.timers.live
    ensures var p := Run(cfg, actions);
            match p.sh.timers.live[id].callback
            case ApproachDone(c) => p.corners.At(c).state == C.FinalApproach
            case RetryPush(c) => p.corners.At(c).state == C.ReadyToPush
            case HandshakeLapsed(c) => p.corners.At(c).state == C.WaitingForConfirmation && p.sh.manager.waiting.At(c)
            case ProcessDone(n) => p.stations.At(n).state == S.Processing
            case ExitDone(n, _) => p.stations.At(n).state == S.Exiting
  {
    RunOk(cfg, actions);
    var p := Run(cfg, actions);
    var callback := p.sh.timers.live[id].callback;
    assert p.sh.timers.Runs(id, callback);
    match callback
    case ProcessDone(n) => assert SI.StationOk(cfg, n, p.stations.At(n), p.sh);
    case ExitDone(n, _) =>
      assert SI.StationOk(cfg, n, p.stations.At(n), p.sh);
      assert SI.ExitRuns(n, p.sh.timers, id);
    case ApproachDone(c) => assert CI.CornerOk(cfg, c, p.corners.At(c), p.sh);
    case RetryPush(c) => assert CI.CornerOk(cfg, c, p.corners.At(c), p.sh);
    case HandshakeLapsed(c) => assert CI.CornerOk(cfg, c, p.corners.At(c), p.sh);
  }

  // --------------------------------------------------------------- conveyor handshakes

  /** Each main conveyor runs exactly while the corner it feeds is idle. */
  lemma ConveyorsFollowCorners(cfg: Config, actions: seq<Action>)
    requires cfg.Valid()
    ensures var p := Run(cfg, actions);
            && Throttle(p, 1) == (if p.corners.c1.state == C.Idle then cfg.conveyorSpeed else 0.0)
            && Throttle(p, 2) == (if p.corners.c3.state == C.Idle then cfg.conveyorSpeed else 0.0)
  {
    RunOk(cfg, actions);
    var p := Run(cfg, actions);
    assert CI.CornerOk(cfg, 1, p.corners.At(1), p.sh) && CI.CornerOk(cfg, 3, p.corners.At(3), p.sh);
  }

  predicate Stops(p: Plant, p': Plant, motor: int)
    requires 1 <= motor <= 8
  {
    Throttle(p, motor) != 0.0 && Throttle(p', motor) == 0.0
  }

  /** A step that takes corner `c` out of idle found its conveyor safe to stop. */
  lemma LeavingIdleIsSafe(cfg: Config, p: Plant, a: Action, c: CornerId)
    requires cfg.Valid() && Ok(cfg, p)
    requires p.corners.At(c).state == C.Idle && Step(cfg, p, a).corners.At(c).state != C.Idle
    ensures C.FeedMotor(c).Some? ==> SafeToStop(p.sh.manager, C.FeedMotor(c).value)
    ensures Step(cfg, p, a).corners.At(c).state == C.FinalApproach
  {
    if a.Fire? && a.id in p.sh.timers.live {
      var callback := p.sh.timers.live[a.id].callback;
      assert CI.CornerOk(cfg, c, p.corners.At(c), p.sh);
      if C.OfCorner(callback, c) {
        assert p.sh.timers.Runs(a.id, callback);
      }
    }
  }

  /** No step stops M1 while corner 2 waits for its part, nor M2 while corner 4 does. */
  lemma HandshakeKeepsConveyor(cfg: Config, actions: seq<Action>, a: Action)
    requires cfg.Valid()
    ensures var p := Run(cfg, actions);
            var p' := Run(cfg, actions + [a]);
            && (Stops(p, p', 1) ==> !p.sh.manager.waiting.At(2))
            && (Stops(p, p', 2) ==> !p.sh.manager.waiting.At(4))
  {
    AppendFront(actions, a);
    ConveyorsFollowCorners(cfg, actions);
    ConveyorsFollowCorners(cfg, actions + [a]);
    RunOk(cfg, actions);
    var p := Run(cfg, actions);
    var p' := Run(cfg, actions + [a]);
    if Stops(p, p', 1) {
      LeavingIdleIsSafe(cfg, p, a, 1);
    }
    if Stops(p, p', 2) {
      LeavingIdleIsSafe(cfg, p, a, 3);
    }
  }

  // ------------------------------------------------------------------------ jams

  predicate Confirms(a: Action, c: CornerId) {
    a.Deliver? && a.delivery.event.place == AtCorner(c) && a.delivery.event.barrier == C.Confirmation(c)
  }

  /** A waiting corner, lapsed handshake or not, is left waiting and reserved by every step but
      the delivery of its confirmation. */
  lemma OnlyConfirmationEndsWaiting(cfg: Config, actions: seq<Action>, a: Action, c: CornerId)
    requires cfg.Valid() && Run(cfg, actions).corners.At(c).state == C.WaitingForConfirmation
    ensures var p' := Run(cfg, actions + [a]);
            && p'.corners.At(c).state == (if Confirms(a, c) then C.Retracting else C.WaitingForConfirmation)
            && p'.sh.manager.occupied.At(c)
  {
    hide Step;
    RunAppend(cfg, actions, a);
    RunOk(cfg, actions);
    RunOk(cfg, actions + [a]);
    var p' := Run(cfg, actions + [a]);
    WaitingStep(cfg, Run(cfg, actions), a, c);
    assert CI.CornerOk(cfg, c, p'.corners.At(c), p'.sh);
  }

  /** A timer that fires leaves a reserved corner in its state. */
  lemma FireLeavesReserved(cfg: Config, p: Plant, id: nat, t1: real, t2: real, c: CornerId)
    requires Ok(cfg, p) && CI.Holding(p.corners.At(c).state)
    ensures FireStep(cfg, p, id, t1, t2).corners.At(c).state == p.corners.At(c).state
  {
    hide MayGrant, S.Awake;
    assert CI.CornerOk(cfg, c, p.corners.At(c), p.sh);
    if id in p.sh.timers.live {
      assert p.sh.timers.Runs(id, p.sh.timers.live[id].callback);
    }
  }

  lemma WaitingStep(cfg: Config, p: Plant, a: Action, c: CornerId)
    requires Ok(cfg, p) && p.corners.At(c).state == C.WaitingForConfirmation
    ensures Step(cfg, p, a).corners.At(c).state == if Confirms(a, c) then C.Retracting else C.WaitingForConfirmation
  {
    hide Ok, FireStep, S.React;
    if a.Fire? {
      FireLeavesReserved(cfg, p, a.id, a.t1, a.t2, c);
    }
  }

  predicate SwitchesBack(a: Action, c: CornerId) {
    a.Deliver? && a.delivery.event.place == AtCorner(c) && a.delivery.event.barrier == CornerRet(c)
  }

  lemma RetractingStep(cfg: Config, p: Plant, a: Action, c: CornerId)
    requires Ok(cfg, p) && p.corners.At(c).state == C.Retracting && !SwitchesBack(a, c)
    ensures Step(cfg, p, a).corners.At(c).state == C.Retracting
  {
    hide Ok, FireStep, S.React;
    if a.Fire? {
      FireLeavesReserved(cfg, p, a.id, a.t1, a.t2, c);
    }
  }

  lemma SwitchStep(cfg: Config, p: Plant, a: Action, c: CornerId)
    requires p.corners.At(c).state == C.Retracting && SwitchesBack(a, c)
    ensures var p' := Step(cfg, p, a);
            p'.corners.At(c).state == C.Idle && !p'.sh.manager.occupied.At(c) && p'.sh.manager.lastUsed.At(c) == a.t2
  {
  }

  lemma {:induction false} KeepsRetracting(cfg: Config, actions: seq<Action>, between: seq<Action>, c: CornerId)
    requires cfg.Valid() && Run(cfg, actions).corners.At(c).state == C.Retracting
    requires forall i :: 0 <= i < |between| ==> !SwitchesBack(between[i], c)
    ensures Run(cfg, actions + between).corners.At(c).state == C.Retracting
  {
    if between == [] {
      assert actions + between == actions;
    } else {
      var front := Front(between);
      KeepsRetracting(cfg, actions, front, c);
      assert actions + between == (actions + front) + [Last(between)];
      RunAppend(cfg, actions + front, Last(between));
      RunOk(cfg, actions + front);
      RetractingStep(cfg, Run(cfg, actions + front), Last(between), c);
    }
  }

  /** So a jam is no lock: however long ago the handshake lapsed, the confirmation and then, after
      whatever other steps, the retracted switch bring the corner back to idle and release it. */
  lemma LateConfirmationReleases(cfg: Config, actions: seq<Action>, c: CornerId, confirmation: Action,
                                 between: seq<Action>, back: Action)
    requires cfg.Valid() && Run(cfg, actions).corners.At(c).state == C.WaitingForConfirmation
    requires Confirms(confirmation, c) && SwitchesBack(back, c)
    requires forall i :: 0 <= i < |between| ==> !SwitchesBack(between[i], c)
    ensures var p := Run(cfg, actions + [confirmation] + between + [back]);
            p.corners.At(c).state == C.Idle && !p.sh.manager.occupied.At(c)
            && p.sh.manager.lastUsed.At(c) == back.t2
  {
    hide Step;
    OnlyConfirmationEndsWaiting(cfg, actions, confirmation, c);
    KeepsRetracting(cfg, actions + [confirmation], between, c);
    RunAppend(cfg, actions + [confirmation] + between, back);
    SwitchStep(cfg, Run(cfg, actions + [confirmation] + between), back, c);
  }

  // ------------------------------------------------------------------- station logs

  /** Whatever reaches it, a station logs whole visits, one after the other, each with one part;
      a refusal is logged only between visits; and the unfinished visit reaches exactly as far as
      the state. The part is known and the motor runs, station 2 in reverse, exactly in the states
      that need them. */
  lemma StationLogIsVisits(cfg: Config, actions: seq<Action>, n: StationId)
    requires cfg.Valid()
    ensures var p := Run(cfg, actions);
            var fsm := p.stations.At(n);
            && SI.InVisit(SI.Marks(p.sh.log, n), SI.Progress(fsm.state), S.PartOf(fsm))
            && (fsm.part.Some? <==> fsm.state != S.Idle)
            && (fsm.entryStamp.Some? <==> fsm.state != S.Idle)
            && fsm.state != S.AdvancingToProcess
            && Throttle(p, 2 + n)
               == (if fsm.state !in {S.Entering, S.AdvancingToExit, S.Exiting} then 0.0
                   else if n == 1 then cfg.stationSpeed else -cfg.stationSpeed)
  {
    hide Ok, SI.InVisit, SI.Visits, SI.Marks;
    RunOk(cfg, actions);
    StationHolds(cfg, Run(cfg, actions), n);
  }
}
