/** What the wiring tables make of the corner protocol: confirmations never reach a corner. */
module AsWired {
  import opened Basics
  import opened TimerPool
  import opened Collision
  import opened SharedState
  import opened Plant
  import opened PlantInvariant
  import opened Timing
  import Sensors
  import Protocol
  import C = Corners
  import S = Stations
  import CI = CornerInvariant

  /** Every delivered event has the place that the tables wire to its barrier. */
  ghost predicate WiredActions(actions: seq<Action>) {
    forall i :: 0 <= i < |actions| && actions[i].Deliver? ==> Sensors.Wired(actions[i].delivery.event)
  }

  /** The tables send every confirmation barrier to a station or to a conveyor, never to its corner. */
  lemma ConfirmationIsElsewhere(e: SensorEvent, c: CornerId)
    requires Sensors.Wired(e) && e.place == AtCorner(c)
    ensures e.barrier != C.Confirmation(c)
  {
  }

  /** How far a corner has come; without confirmations there is no way back. */
  function Rank(state: C.CornerState): nat {
    match state
    case Idle => 0
    case FinalApproach => 1
    case ReadyToPush => 2
    case Extending => 3
    case Pushing => 4
    case WaitingForConfirmation => 5
    case Retracting => 6
  }

  lemma ReactAdvances(cfg: Config, c: CornerId, v: C.CornerView, barrier: Barrier, t1: real, t2: real)
    requires v.fsm.state != C.Retracting && barrier != C.Confirmation(c)
    ensures var v' := C.React(cfg, c, v, barrier, t1, t2);
            && v'.fsm.state != C.Retracting && Rank(v.fsm.state) <= Rank(v'.fsm.state)
            && (forall d: CornerId :: v.sh.manager.occupied.At(d) ==> v'.sh.manager.occupied.At(d))
  {
  }

  lemma AwakeAdvances(cfg: Config, c: CornerId, fsm: C.CornerFsm, sh: Shared, id: nat, t1: real, t2: real)
    requires CI.CornerOk(cfg, c, fsm, sh) && fsm.state != C.Retracting
    requires id in sh.timers.live && C.OfCorner(sh.timers.live[id].callback, c)
    ensures var v' := C.Awake(cfg, c, C.CornerView(fsm, sh.Fired(id)), sh.timers.live[id].callback, t1, t2);
            && v'.fsm.state != C.Retracting && Rank(fsm.state) <= Rank(v'.fsm.state)
            && (forall d: CornerId :: sh.manager.occupied.At(d) ==> v'.sh.manager.occupied.At(d))
  {
    assert sh.timers.Runs(id, sh.timers.live[id].callback);
    forall d: CornerId | sh.manager.occupied.At(d)
      ensures Reserve(sh.manager, c).occupied.At(d)
    {
    }
  }

  /** No corner is retracting, and each has come at least as far as before. */
  ghost predicate Advanced(p: Plant, p': Plant) {
    forall c: CornerId ::
      && p'.corners.At(c).state != C.Retracting
      && Rank(p.corners.At(c).state) <= Rank(p'.corners.At(c).state)
      && (p.sh.manager.occupied.At(c) ==> p'.sh.manager.occupied.At(c))
  }

  lemma WiredDeliveryAdvances(cfg: Config, p: Plant, d: Delivery, t1: real, t2: real, c: CornerId)
    requires Advanced(p, p) && Sensors.Wired(d.event) && d.event.place == AtCorner(c)
    ensures Advanced(p, DeliverStep(cfg, p, d, t1, t2))
  {
    hide C.React, Sensors.Wired;
    ConfirmationIsElsewhere(d.event, c);
    ReactAdvances(cfg, c, CornerAt(p, c), d.event.barrier, t1, t2);
    CornerStepAdvances(p, c, C.React(cfg, c, CornerAt(p, c), d.event.barrier, t1, t2));
  }

  lemma CornerStepAdvances(p: Plant, c: CornerId, v: C.CornerView)
    requires Advanced(p, p) && v.fsm.state != C.Retracting && Rank(p.corners.At(c).state) <= Rank(v.fsm.state)
    requires forall d: CornerId :: p.sh.manager.occupied.At(d) ==> v.sh.manager.occupied.At(d)
    ensures Advanced(p, WithCorner(p, c, v))
  {
  }

  /** Stations have no part in this. */
  lemma StationStepAdvances(p: Plant, n: StationId, v: S.StationView)
    requires Advanced(p, p) && v.sh.manager == p.sh.manager
    ensures Advanced(p, WithStation(p, n, v))
  {
  }

  lemma StationsReserveNothing(cfg: Config, n: StationId, v: S.StationView, d: Delivery, callback: Callback, t1: real, t2: real)
    ensures S.React(cfg, n, v, d, t1, t2).sh.manager == v.sh.manager
    ensures S.OfStation(callback, n) ==> S.Awake(cfg, n, v, callback, t1).sh.manager == v.sh.manager
  {
  }

  lemma WiredStepAdvances(cfg: Config, p: Plant, a: Action)
    requires Ok(cfg, p) && Advanced(p, p)
    requires a.Deliver? ==> Sensors.Wired(a.delivery.event)
    ensures Advanced(p, Step(cfg, p, a))
  {
    hide Advanced, Ok, C.React, C.Awake, S.React, S.Awake, Sensors.Wired;
    match a
    case Deliver(d, t1, t2) =>
      match d.event.place {
        case AtCorner(c) => if 1 <= c <= 4 { WiredDeliveryAdvances(cfg, p, d, t1, t2, c); }
        case AtStation(n) =>
          if 1 <= n <= 2 {
            StationsReserveNothing(cfg, n, StationAt(p, n), d, ProcessDone(n), t1, t2);
            StationStepAdvances(p, n, S.React(cfg, n, StationAt(p, n), d, t1, t2));
          }
        case _ =>
      }
    case Fire(id, t1, t2) =>
      if id in p.sh.timers.live {
        match p.sh.timers.live[id].callback {
          case ApproachDone(c) => CornerFireAdvances(cfg, p, c, id, t1, t2);
          case RetryPush(c) => CornerFireAdvances(cfg, p, c, id, t1, t2);
          case HandshakeLapsed(c) => CornerFireAdvances(cfg, p, c, id, t1, t2);
          case ProcessDone(n) => StationFireAdvances(cfg, p, n, id, t1, t2);
          case ExitDone(n, _) => StationFireAdvances(cfg, p, n, id, t1, t2);
        }
      }
    case Report(_, _, _, _, _) => SameCornersAdvance(p, Step(cfg, p, a));
  }

  lemma SameCornersAdvance(p: Plant, p': Plant)
    requires Advanced(p, p) && p'.corners == p.corners && p'.sh.manager == p.sh.manager
    ensures Advanced(p, p')
  {
  }

  lemma StationFireAdvances(cfg: Config, p: Plant, n: StationId, id: nat, t1: real, t2: real)
    requires Advanced(p, p)
    requires id in p.sh.timers.live && S.OfStation(p.sh.timers.live[id].callback, n)
    ensures Advanced(p, FireStep(cfg, p, id, t1, t2))
  {
    hide Advanced, S.Awake;
    StationsReserveNothing(cfg, n, S.StationView(p.stations.At(n), p.sh.Fired(id)),
                           Delivery(SensorEvent(t1, StationEntry(n), Nowhere), None), p.sh.timers.live[id].callback, t1, t2);
    SameCornersAdvance(p, FireStep(cfg, p, id, t1, t2));
  }

  lemma CornerFireAdvances(cfg: Config, p: Plant, c: CornerId, id: nat, t1: real, t2: real)
    requires Ok(cfg, p) && Advanced(p, p)
    requires id in p.sh.timers.live && C.OfCorner(p.sh.timers.live[id].callback, c)
    ensures Advanced(p, FireStep(cfg, p, id, t1, t2))
  {
    AwakeAdvances(cfg, c, p.corners.At(c), p.sh, id, t1, t2);
  }

  lemma WiredFront(actions: seq<Action>)
    requires actions != [] && WiredActions(actions)
    ensures WiredActions(Front(actions))
    ensures Last(actions).Deliver? ==> Sensors.Wired(Last(actions).delivery.event)
  {
  }

  lemma {:induction false} WiredRunNeverRetracts(cfg: Config, actions: seq<Action>)
    requires cfg.Valid() && WiredActions(actions)
    ensures Advanced(Run(cfg, actions), Run(cfg, actions))
  {
    if actions != [] {
      WiredFront(actions);
      WiredRunNeverRetracts(cfg, Front(actions));
      RunOk(cfg, Front(actions));
      WiredStepAdvances(cfg, Run(cfg, Front(actions)), Last(actions));
    }
  }

  /** As wired, no step ever brings a corner back: it never confirms, retracts, releases or idles again. */
  lemma WiredCornersOnlyAdvance(cfg: Config, actions: seq<Action>, a: Action)
    requires cfg.Valid() && WiredActions(actions + [a])
    ensures Advanced(Run(cfg, actions), Run(cfg, actions + [a]))
  {
    AppendFront(actions, a);
    WiredFront(actions + [a]);
    WiredRunNeverRetracts(cfg, actions);
    RunOk(cfg, actions);
    WiredStepAdvances(cfg, Run(cfg, actions), a);
  }

  /** The pushes logged by a corner are its current reservation. */
  lemma {:induction false} WiredPushes(cfg: Config, actions: seq<Action>, c: CornerId)
    requires cfg.Valid() && WiredActions(actions)
    ensures var p := Run(cfg, actions);
            && |PushStarts(p.sh.log, c)| == (if p.sh.manager.occupied.At(c) then 1 else 0)
            && p.sh.manager.lastUsed.At(c) == 0.0
  {
    if actions == [] {
      assert PushStarts([], c) == [];
    } else {
      var p, a := Run(cfg, Front(actions)), Last(actions);
      WiredFront(actions);
      WiredPushes(cfg, Front(actions), c);
      RunOk(cfg, Front(actions));
      WiredRunNeverRetracts(cfg, Front(actions));
      WiredStepAdvances(cfg, p, a);
      StepEffect(cfg, p, a, c);
    }
  }

  /** As wired, a whole run logs at most one push per corner and at most two in all. */
  lemma WiredRunPushesAtMostTwice(cfg: Config, actions: seq<Action>)
    requires cfg.Valid() && WiredActions(actions)
    ensures var log := Run(cfg, actions).sh.log;
            && (forall c: CornerId :: |PushStarts(log, c)| <= 1)
            && |PushStarts(log, 1)| + |PushStarts(log, 2)| + |PushStarts(log, 3)| + |PushStarts(log, 4)| <= 2
  {
    RunOk(cfg, actions);
    Protocol.Diagonal(Run(cfg, actions).sh.manager);
    forall c: CornerId
      ensures |PushStarts(Run(cfg, actions).sh.log, c)| == if Run(cfg, actions).sh.manager.occupied.At(c) then 1 else 0
    {
      WiredPushes(cfg, actions, c);
    }
  }

  function Arrival(c: CornerId, t: real): Action {
    Deliver(Delivery(SensorEvent(t, CornerPos(c), AtCorner(c)), None), t, t)
  }

  lemma ArrivalStarts(cfg: Config, p: Plant, c: CornerId, t: real)
    requires p.corners.At(c).state == C.Idle && !p.sh.manager.waiting.c2 && !p.sh.manager.waiting.c4
    ensures var p' := Step(cfg, p, Arrival(c, t));
            && p'.corners == p.corners.With(c, C.CornerFsm(C.FinalApproach, Some(p.sh.timers.next), p.corners.At(c).handshakeTimer))
            && p'.sh.manager == p.sh.manager && p'.sh.log == p.sh.log
            && p'.sh.timers == p.sh.timers.Start(ApproachDone(c), t + cfg.finalDelay)
  {
  }

  lemma ApproachPushes(cfg: Config, p: Plant, id: nat, c: CornerId, t: real)
    requires p.sh.timers.Runs(id, ApproachDone(c)) && MayGrant(p.sh.manager, c, t)
    ensures var p' := Step(cfg, p, Fire(id, t, t));
            && p'.sh.log == p.sh.log + [Entry(t, CornerUnit(c), UNKNOWN_PART, PushStart)]
            && p'.sh.manager == Reserve(p.sh.manager, c) && p'.sh.timers == p.sh.timers.Cancel(id)
  {
  }

  /** Two pushes are reached: parts arrive at corners 1 and 3, both approaches end, both push. */
  lemma TwoPushesAreReached(cfg: Config) returns (actions: seq<Action>)
    ensures WiredActions(actions) && Forward(actions, 0.0)
    ensures var log := Run(cfg, actions).sh.log; |PushStarts(log, 1)| == 1 && |PushStarts(log, 3)| == 1
  {
    hide Step;
    var later := 2.0 + Abs(cfg.finalDelay);
    var a0, a1, a2, a3 := Arrival(1, 2.0), Arrival(3, 2.0), Fire(0, later, later), Fire(1, later, later);
    actions := [a0] + [a1] + [a2] + [a3];
    assert [] + [a0] == [a0];
    RunAppend(cfg, [], a0);
    RunAppend(cfg, [a0], a1);
    RunAppend(cfg, [a0] + [a1], a2);
    RunAppend(cfg, [a0] + [a1] + [a2], a3);
    var p1, p2 := Run(cfg, [a0]), Run(cfg, [a0] + [a1]);
    ArrivalStarts(cfg, Start(cfg), 1, 2.0);
    ArrivalStarts(cfg, p1, 3, 2.0);
    ApproachPushes(cfg, p2, 0, 1, later);
    ApproachPushes(cfg, Run(cfg, [a0] + [a1] + [a2]), 1, 3, later);
    var e1 := Entry(later, CornerUnit(1), UNKNOWN_PART, PushStart);
    var e3 := Entry(later, CornerUnit(3), UNKNOWN_PART, PushStart);
    forall c: CornerId
      ensures PushStarts(([] + [e1]) + [e3], c) == (if c == 1 || c == 3 then [later] else [])
    {
      PushStartsAppend([], e1, c);
      PushStartsAppend([] + [e1], e3, c);
    }
  }

  // ------------------------------------------------------------- entries carry a part

  /** Entry barriers come with a part, as the event matcher delivers them. */
  ghost predicate EntriesCarryParts(actions: seq<Action>) {
    forall i :: 0 <= i < |actions| && actions[i].Deliver? && actions[i].delivery.event.barrier.StationEntry?
                ==> actions[i].delivery.part.Some?
  }

  ghost predicate NoRefusal(log: seq<Entry>) {
    forall i :: 0 <= i < |log| ==> log[i].activity != ErrorNoPartId
  }

  lemma StepRefusesNothing(cfg: Config, p: Plant, a: Action)
    requires NoRefusal(p.sh.log)
    requires a.Deliver? && a.delivery.event.barrier.StationEntry? ==> a.delivery.part.Some?
    ensures NoRefusal(Step(cfg, p, a).sh.log)
  {
  }

  /** Then no station ever refuses an entry for want of a part. */
  lemma {:induction false} NoEntryIsRefused(cfg: Config, actions: seq<Action>)
    requires EntriesCarryParts(actions)
    ensures NoRefusal(Run(cfg, actions).sh.log)
  {
    if actions != [] {
      NoEntryIsRefused(cfg, Front(actions));
      StepRefusesNothing(cfg, Run(cfg, Front(actions)), Last(actions));
    }
  }
}
