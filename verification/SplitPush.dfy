/** The push at a finer grain: asking for the corner and extending are two steps, and so are
    releasing it and becoming idle again. Any other thread may run in between. */
module SplitPush {
  import opened Basics
  import opened TimerPool
  import opened Collision
  import opened SharedState
  import opened Plant
  import opened PlantInvariant
  import C = Corners
  import S = Stations
  import CI = CornerInvariant
  import SI = StationInvariant
  import History

  /** Where a thread stands that has done half of a push step of its corner: it was granted the
      corner and has yet to extend, or it has freed the corner and has yet to make it idle. */
  datatype Phase = Settled | Granted | Freed

  datatype Split = Split(plant: Plant, phases: PerCorner<Phase>)

  datatype SplitStep =
    | Whole(action: Action)
    | Ask(id: nat, t1: real, t2: real)
    | Extend(c: CornerId, t2: real)
    | Free(c: CornerId, t1: real, t2: real)
    | Restart(c: CornerId)

  const ALL_SETTLED := PerCorner(Settled, Settled, Settled, Settled)

  predicate IsPush(callback: Callback) {
    callback.ApproachDone? || callback.RetryPush?
  }

  /** The steps that come in two halves: a push attempt and the end of a retraction. */
  predicate Halved(p: Plant, a: Action) {
    match a
    case Fire(id, _, _) => id in p.sh.timers.live && IsPush(p.sh.timers.live[id].callback)
    case Deliver(d, _, _) =>
      && d.event.place.AtCorner? && 1 <= d.event.place.id <= 4 && d.event.barrier == CornerRet(d.event.place.id)
      && p.corners.At(d.event.place.id).state == C.Retracting
    case _ => false
  }

  /** The one thread that delivers events is inside a retraction. */
  predicate ConsumerInside(s: Split) {
    s.phases.c1 == Freed || s.phases.c2 == Freed || s.phases.c3 == Freed || s.phases.c4 == Freed
  }

  /** The first half of a push attempt: what `request_corner` and a refusal do. */
  function AskHalf(c: CornerId, v: C.CornerView, approach: bool, t1: real, t2: real): C.CornerView {
    var fsm := if approach then v.fsm.(state := C.ReadyToPush) else v.fsm;
    if MayGrant(v.sh.manager, c, t1) then C.CornerView(fsm, v.sh.(manager := Reserve(v.sh.manager, c)))
    else C.CornerView(fsm, v.sh.Timed(RetryPush(c), t2 + C.RETRY_DELAY))
  }

  function AskStep(s: Split, id: nat, t1: real, t2: real): Split {
    if id in s.plant.sh.timers.live && IsPush(s.plant.sh.timers.live[id].callback) then
      var callback := s.plant.sh.timers.live[id].callback;
      var v := C.CornerView(s.plant.corners.At(callback.c), s.plant.sh.Fired(id));
      var phase := if MayGrant(s.plant.sh.manager, callback.c, t1) then Granted else s.phases.At(callback.c);
      Split(WithCorner(s.plant, callback.c, AskHalf(callback.c, v, callback.ApproachDone?, t1, t2)),
            s.phases.With(callback.c, phase))
    else s
  }

  /** The second half: transition, log entry and motor. */
  function ExtendHalf(cfg: Config, c: CornerId, v: C.CornerView, t2: real): C.CornerView {
    C.CornerView(
      v.fsm.(state := C.Extending),
      v.sh.Logged(CornerUnit(c), UNKNOWN_PART, PushStart, t2).Drive(C.PusherMotor(c), cfg.cornerSpeed))
  }

  function FreeHalf(c: CornerId, v: C.CornerView, t1: real, t2: real): C.CornerView {
    v.(sh := C.PushFinished(c, v.sh, t1, t2))
  }

  function RestartHalf(cfg: Config, c: CornerId, v: C.CornerView): C.CornerView {
    C.CornerView(v.fsm.(state := C.Idle), C.DriveFeed(c, v.sh, cfg.conveyorSpeed))
  }

  function SplitNext(cfg: Config, s: Split, step: SplitStep): Split {
    match step
    case Whole(a) =>
      if Halved(s.plant, a) || (a.Deliver? && ConsumerInside(s)) then s else s.(plant := Step(cfg, s.plant, a))
    case Ask(id, t1, t2) => AskStep(s, id, t1, t2)
    case Extend(c, t2) =>
      if s.phases.At(c) != Granted then s
      else Split(WithCorner(s.plant, c, ExtendHalf(cfg, c, CornerAt(s.plant, c), t2)), s.phases.With(c, Settled))
    case Free(c, t1, t2) =>
      if s.phases.At(c) != Settled || ConsumerInside(s) || s.plant.corners.At(c).state != C.Retracting then s
      else Split(WithCorner(s.plant, c, FreeHalf(c, CornerAt(s.plant, c), t1, t2)), s.phases.With(c, Freed))
    case Restart(c) =>
      if s.phases.At(c) != Freed then s
      else Split(WithCorner(s.plant, c, RestartHalf(cfg, c, CornerAt(s.plant, c))), s.phases.With(c, Settled))
  }

  function RunSplit(cfg: Config, steps: seq<SplitStep>): Split {
    if steps == [] then Split(Start(cfg), ALL_SETTLED)
    else SplitNext(cfg, RunSplit(cfg, Front(steps)), Last(steps))
  }

  // ------------------------------------------------------------ the halves make the whole

  /** Without anything in between, the two halves of a push attempt are the whole step. */
  lemma AskThenExtend(cfg: Config, p: Plant, id: nat, t1: real, t2: real)
    requires id in p.sh.timers.live && IsPush(p.sh.timers.live[id].callback)
    ensures var c := p.sh.timers.live[id].callback.c;
            SplitNext(cfg, SplitNext(cfg, Split(p, ALL_SETTLED), Ask(id, t1, t2)), Extend(c, t2))
            == Split(Step(cfg, p, Fire(id, t1, t2)), ALL_SETTLED)
  {
  }

  /** And the two halves at the end of a retraction are the delivery of the retracted switch. */
  lemma FreeThenRestart(cfg: Config, p: Plant, d: Delivery, c: CornerId, t1: real, t2: real)
    requires p.corners.At(c).state == C.Retracting
    requires d.event.place == AtCorner(c) && d.event.barrier == CornerRet(c)
    ensures SplitNext(cfg, SplitNext(cfg, Split(p, ALL_SETTLED), Free(c, t1, t2)), Restart(c))
            == Split(Step(cfg, p, Deliver(d, t1, t2)), ALL_SETTLED)
  {
  }

  // ------------------------------------------------------------------- the invariant

  /** A corner in the middle of a push step: its motors stand still and none of its timers runs. */
  ghost predicate Halfway(c: CornerId, fsm: C.CornerFsm, sh: Shared) {
    && sh.throttle[C.PusherMotor(c) - 1] == 0.0
    && (C.FeedMotor(c).Some? ==> sh.throttle[C.FeedMotor(c).value - 1] == 0.0)
    && !History.IsBusy(sh.log, CornerUnit(c))
    && CI.Handshake(c, fsm, sh) && CI.NoPushTimer(c, sh.timers) && sh.timers.Fresh()
  }

  ghost predicate PhaseOk(cfg: Config, c: CornerId, phase: Phase, fsm: C.CornerFsm, sh: Shared) {
    match phase
    case Settled => CI.CornerOk(cfg, c, fsm, sh)
    case Granted => Halfway(c, fsm, sh) && fsm.state == C.ReadyToPush && sh.manager.occupied.At(c)
    case Freed => Halfway(c, fsm, sh) && fsm.state == C.Retracting && !sh.manager.occupied.At(c)
  }

  ghost predicate SplitOk(cfg: Config, s: Split) {
    && (forall c: CornerId :: PhaseOk(cfg, c, s.phases.At(c), s.plant.corners.At(c), s.plant.sh))
    && (forall n: StationId :: SI.StationOk(cfg, n, s.plant.stations.At(n), s.plant.sh))
    && NoAdjacent(s.plant.sh.manager)
  }

  lemma UntouchedHalfway(d: CornerId, fsm: C.CornerFsm, sh: Shared, sh': Shared)
    requires Halfway(d, fsm, sh) && CI.Untouched(d, sh, sh')
    ensures Halfway(d, fsm, sh')
  {
    CI.UntouchedArms(d, sh.timers, sh'.timers, HandshakeLapsed(d));
  }

  lemma UntouchedPhase(cfg: Config, d: CornerId, phase: Phase, fsm: C.CornerFsm, sh: Shared, sh': Shared)
    requires PhaseOk(cfg, d, phase, fsm, sh) && CI.Untouched(d, sh, sh')
    ensures PhaseOk(cfg, d, phase, fsm, sh')
  {
    if phase == Settled {
      CI.UntouchedKeeps(cfg, d, fsm, sh, sh');
    } else {
      UntouchedHalfway(d, fsm, sh, sh');
    }
  }

  lemma StationUntouchedTwice(n: StationId, a: Shared, b: Shared, c: Shared)
    requires SI.Untouched(n, a, b) && SI.Untouched(n, b, c)
    ensures SI.Untouched(n, a, c)
  {
  }

  /** A step of one corner that spares all others keeps the invariant if it keeps its own part. */
  lemma CornerActs(cfg: Config, s: Split, c: CornerId, v': C.CornerView, phase': Phase)
    requires SplitOk(cfg, s) && PhaseOk(cfg, c, phase', v'.fsm, v'.sh) && NoAdjacent(v'.sh.manager)
    requires forall d: CornerId :: d != c ==> CI.Untouched(d, s.plant.sh, v'.sh)
    requires forall n: StationId :: SI.Untouched(n, s.plant.sh, v'.sh)
    ensures SplitOk(cfg, Split(WithCorner(s.plant, c, v'), s.phases.With(c, phase')))
  {
    hide CI.Untouched, SI.Untouched, PhaseOk, SI.StationOk, NoAdjacent;
    var s' := Split(WithCorner(s.plant, c, v'), s.phases.With(c, phase'));
    forall d: CornerId
      ensures PhaseOk(cfg, d, s'.phases.At(d), s'.plant.corners.At(d), s'.plant.sh)
    {
      if d != c {
        UntouchedPhase(cfg, d, s.phases.At(d), s.plant.corners.At(d), s.plant.sh, v'.sh);
      }
    }
    forall n: StationId
      ensures SI.StationOk(cfg, n, s'.plant.stations.At(n), s'.plant.sh)
    {
      SI.UntouchedKeeps(cfg, n, s.plant.stations.At(n), s.plant.sh, v'.sh);
    }
  }

  lemma StationActs(cfg: Config, s: Split, n: StationId, v': S.StationView)
    requires SplitOk(cfg, s) && SI.StationOk(cfg, n, v'.fsm, v'.sh) && v'.sh.manager == s.plant.sh.manager
    requires forall c: CornerId :: CI.Untouched(c, s.plant.sh, v'.sh)
    requires forall m: StationId :: m != n ==> SI.Untouched(m, s.plant.sh, v'.sh)
    ensures SplitOk(cfg, s.(plant := WithStation(s.plant, n, v')))
  {
    hide CI.Untouched, SI.Untouched, PhaseOk, SI.StationOk, NoAdjacent;
    var p' := WithStation(s.plant, n, v');
    forall d: CornerId
      ensures PhaseOk(cfg, d, s.phases.At(d), p'.corners.At(d), p'.sh)
    {
      UntouchedPhase(cfg, d, s.phases.At(d), s.plant.corners.At(d), s.plant.sh, v'.sh);
    }
    forall m: StationId
      ensures SI.StationOk(cfg, m, p'.stations.At(m), p'.sh)
    {
      if m != n {
        SI.UntouchedKeeps(cfg, m, s.plant.stations.At(m), s.plant.sh, v'.sh);
      }
    }
  }

  // -------------------------------------------------------------------- whole steps

  lemma TimersFresh(cfg: Config, s: Split)
    requires SplitOk(cfg, s)
    ensures s.plant.sh.timers.Fresh()
  {
    assert SI.StationOk(cfg, 1, s.plant.stations.At(1), s.plant.sh);
  }

  lemma PhaseHolds(cfg: Config, s: Split, c: CornerId)
    requires SplitOk(cfg, s)
    ensures PhaseOk(cfg, c, s.phases.At(c), s.plant.corners.At(c), s.plant.sh) && NoAdjacent(s.plant.sh.manager)
  {
  }

  lemma StationHolds(cfg: Config, s: Split, n: StationId)
    requires SplitOk(cfg, s)
    ensures SI.StationOk(cfg, n, s.plant.stations.At(n), s.plant.sh)
  {
  }

  lemma CornerDelivered(cfg: Config, s: Split, c: CornerId, barrier: Barrier, t1: real, t2: real)
    requires cfg.Valid() && SplitOk(cfg, s) && s.phases.At(c) != Freed
    ensures SplitOk(cfg, s.(plant := WithCorner(s.plant, c, C.React(cfg, c, CornerAt(s.plant, c), barrier, t1, t2))))
  {
    var v := CornerAt(s.plant, c);
    var v' := C.React(cfg, c, v, barrier, t1, t2);
    PhaseHolds(cfg, s, c);
    hide SplitOk, CI.Untouched, SI.Untouched, NoAdjacent;
    if s.phases.At(c) == Settled {
      hide C.React;
      CornerReactExcludes(cfg, c, v, barrier, t1, t2);
      CI.ReactKeeps(cfg, c, v, barrier, t1, t2);
      forall d: CornerId | d != c
        ensures CI.Untouched(d, v.sh, v'.sh)
      {
        CI.ReactUntouched(cfg, c, v, barrier, t1, t2, d);
      }
      forall n: StationId
        ensures SI.Untouched(n, v.sh, v'.sh)
      {
        CornerReactSpares(cfg, c, v, barrier, t1, t2, n);
      }
      CornerActs(cfg, s, c, v', Settled);
      assert s.phases.With(c, Settled) == s.phases;
    } else {
      assert v' == v && WithCorner(s.plant, c, v) == s.plant;
    }
  }

  lemma StationDelivered(cfg: Config, s: Split, n: StationId, d: Delivery, t1: real, t2: real)
    requires cfg.Valid() && SplitOk(cfg, s)
    ensures SplitOk(cfg, s.(plant := WithStation(s.plant, n, S.React(cfg, n, StationAt(s.plant, n), d, t1, t2))))
  {
    hide CI.Untouched, SI.Untouched, S.React;
    var v := StationAt(s.plant, n);
    var v' := S.React(cfg, n, v, d, t1, t2);
    TimersFresh(cfg, s);
    StationHolds(cfg, s, n);
    SI.ReactKeeps(cfg, n, v, d, t1, t2);
    StationReactSpares(cfg, n, v, d, t1, t2, 1);
    forall c: CornerId
      ensures CI.Untouched(c, v.sh, v'.sh)
    {
      StationReactSpares(cfg, n, v, d, t1, t2, c);
    }
    forall m: StationId | m != n
      ensures SI.Untouched(m, v.sh, v'.sh)
    {
      SI.ReactUntouched(cfg, n, v, d, t1, t2, m);
    }
    StationActs(cfg, s, n, v');
  }

  lemma StationFired(cfg: Config, s: Split, n: StationId, id: nat, t1: real, t2: real)
    requires cfg.Valid() && SplitOk(cfg, s)
    requires id in s.plant.sh.timers.live && S.OfStation(s.plant.sh.timers.live[id].callback, n)
    ensures SplitOk(cfg, s.(plant := FireStep(cfg, s.plant, id, t1, t2)))
  {
    hide CI.Untouched, SI.Untouched, S.Awake, SplitOk, SI.StationOk;
    var sh, callback := s.plant.sh, s.plant.sh.timers.live[id].callback;
    var v := S.StationView(s.plant.stations.At(n), sh.Fired(id));
    var v' := S.Awake(cfg, n, v, callback, t1);
    TimersFresh(cfg, s);
    StationHolds(cfg, s, n);
    SI.AwakeKeeps(cfg, n, s.plant.stations.At(n), sh, id, t1);
    StationAwakeSpares(cfg, n, v, callback, t1, 1);
    forall c: CornerId
      ensures CI.Untouched(c, sh, v'.sh)
    {
      CI.FiredUntouched(sh, id, c);
      StationAwakeSpares(cfg, n, v, callback, t1, c);
      CI.UntouchedTwice(c, sh, v.sh, v'.sh);
    }
    forall m: StationId | m != n
      ensures SI.Untouched(m, sh, v'.sh)
    {
      FiredSpares(sh, id, m);
      SI.AwakeUntouched(cfg, n, v, callback, t1, m);
      StationUntouchedTwice(m, sh, v.sh, v'.sh);
    }
    StationActs(cfg, s, n, v');
  }

  /** A corner in the middle of a push step has no handshake running. */
  lemma HandshakeMeansSettled(cfg: Config, c: CornerId, phase: Phase, fsm: C.CornerFsm, sh: Shared, id: nat)
    requires PhaseOk(cfg, c, phase, fsm, sh) && sh.timers.Runs(id, HandshakeLapsed(c))
    ensures phase == Settled
  {
    assert CI.Armed(sh.timers, HandshakeLapsed(c));
  }

  lemma HandshakeFired(cfg: Config, s: Split, c: CornerId, id: nat, t1: real, t2: real)
    requires cfg.Valid() && SplitOk(cfg, s) && s.plant.sh.timers.Runs(id, HandshakeLapsed(c))
    ensures SplitOk(cfg, s.(plant := FireStep(cfg, s.plant, id, t1, t2)))
  {
    PhaseHolds(cfg, s, c);
    TimersFresh(cfg, s);
    HandshakeMeansSettled(cfg, c, s.phases.At(c), s.plant.corners.At(c), s.plant.sh, id);
    hide CI.Untouched, SI.Untouched, C.Awake, SplitOk, SI.StationOk, NoAdjacent;
    var sh, callback := s.plant.sh, HandshakeLapsed(c);
    var v := C.CornerView(s.plant.corners.At(c), sh.Fired(id));
    var v' := C.Awake(cfg, c, v, callback, t1, t2);
    CI.AwakeKeeps(cfg, c, s.plant.corners.At(c), sh, id, t1, t2);
    CornerAwakeExcludes(cfg, c, v, callback, t1, t2);
    forall d: CornerId | d != c
      ensures CI.Untouched(d, sh, v'.sh)
    {
      CI.FiredUntouched(sh, id, d);
      CI.AwakeUntouched(cfg, c, v, callback, t1, t2, d);
      CI.UntouchedTwice(d, sh, v.sh, v'.sh);
    }
    forall n: StationId
      ensures SI.Untouched(n, sh, v'.sh)
    {
      FiredSpares(sh, id, n);
      CornerAwakeSpares(cfg, c, v, callback, t1, t2, n);
      StationUntouchedTwice(n, sh, v.sh, v'.sh);
    }
    CornerActs(cfg, s, c, v', Settled);
    assert s.phases.With(c, Settled) == s.phases;
  }

  lemma ReportUntouched(sh: Shared, e: Entry, c: CornerId, n: StationId)
    requires IsReport(e.activity)
    ensures CI.Untouched(c, sh, sh.(log := sh.log + [e])) && SI.Untouched(n, sh, sh.(log := sh.log + [e]))
  {
    CI.BusyAppend(sh.log, e, CornerUnit(c));
    SI.MarksAppend(sh.log, e, n);
  }

  lemma Reported(cfg: Config, s: Split, unit: Unit, part: string, error: Activity, now: real)
    requires SplitOk(cfg, s) && IsReport(error)
    ensures SplitOk(cfg, s.(plant := s.plant.(sh := s.plant.sh.Logged(unit, part, error, now))))
  {
    hide CI.Untouched, SI.Untouched;
    var sh' := s.plant.sh.Logged(unit, part, error, now);
    forall c: CornerId
      ensures CI.Untouched(c, s.plant.sh, sh')
    {
      ReportUntouched(s.plant.sh, Entry(now, unit, part, error), c, 1);
    }
    forall n: StationId
      ensures SI.Untouched(n, s.plant.sh, sh')
    {
      ReportUntouched(s.plant.sh, Entry(now, unit, part, error), 1, n);
    }
    SI.UntouchedKeeps(cfg, 1, s.plant.stations.At(1), s.plant.sh, sh');
    StationActs(cfg, s, 1, S.StationView(s.plant.stations.At(1), sh'));
    assert WithStation(s.plant, 1, S.StationView(s.plant.stations.At(1), sh')) == s.plant.(sh := sh');
  }

  lemma WholeKeeps(cfg: Config, s: Split, a: Action)
    requires cfg.Valid() && SplitOk(cfg, s) && !Halved(s.plant, a) && !(a.Deliver? && ConsumerInside(s))
    ensures SplitOk(cfg, s.(plant := Step(cfg, s.plant, a)))
  {
    hide SplitOk, C.React, C.Awake, S.React, S.Awake;
    match a
    case Deliver(d, t1, t2) =>
      match d.event.place {
        case AtStation(n) => if 1 <= n <= 2 { StationDelivered(cfg, s, n, d, t1, t2); }
        case AtCorner(c) => if 1 <= c <= 4 { CornerDelivered(cfg, s, c, d.event.barrier, t1, t2); }
        case _ =>
      }
    case Fire(id, t1, t2) =>
      if id in s.plant.sh.timers.live {
        match s.plant.sh.timers.live[id].callback {
          case HandshakeLapsed(c) => HandshakeFired(cfg, s, c, id, t1, t2);
          case ProcessDone(n) => StationFired(cfg, s, n, id, t1, t2);
          case ExitDone(n, _) => StationFired(cfg, s, n, id, t1, t2);
          case _ =>
        }
      }
    case Report(unit, part, error, t1, _) =>
      if IsReport(error) {
        Reported(cfg, s, unit, part, error, t1);
      }
  }

  // ------------------------------------------------------------------------ the halves

  /** A push timer of a corner fires: the corner is settled and has no push timer left. */
  lemma PushTimerFired(cfg: Config, c: CornerId, phase: Phase, fsm: C.CornerFsm, sh: Shared, id: nat)
    requires PhaseOk(cfg, c, phase, fsm, sh) && id in sh.timers.live && CI.IsPushTimer(sh.timers.live[id].callback, c)
    ensures phase == Settled && CI.CornerBase(cfg, c, fsm.(state := C.ReadyToPush), sh.Fired(id))
    ensures CI.NoPushTimer(c, sh.Fired(id).timers)
    ensures sh.timers.live[id].callback.RetryPush? ==> fsm.state == C.ReadyToPush
  {
    if phase == Settled {
      CI.FiredPushTimer(cfg, c, fsm, sh, id);
      assert sh.timers.Runs(id, sh.timers.live[id].callback);
    }
  }

  lemma AskHalfUntouched(c: CornerId, v: C.CornerView, approach: bool, t1: real, t2: real, d: CornerId, n: StationId)
    requires v.sh.timers.Fresh()
    ensures d != c ==> CI.Untouched(d, v.sh, AskHalf(c, v, approach, t1, t2).sh)
    ensures SI.Untouched(n, v.sh, AskHalf(c, v, approach, t1, t2).sh)
  {
    hide History.IsBusy, SI.Marks, MayGrant;
  }

  lemma AskHalfKeeps(cfg: Config, c: CornerId, v: C.CornerView, approach: bool, t1: real, t2: real)
    requires cfg.Valid() && CI.CornerBase(cfg, c, v.fsm.(state := C.ReadyToPush), v.sh)
    requires CI.NoPushTimer(c, v.sh.timers) && (approach || v.fsm.state == C.ReadyToPush)
    ensures var v' := AskHalf(c, v, approach, t1, t2);
            PhaseOk(cfg, c, if MayGrant(v.sh.manager, c, t1) then Granted else Settled, v'.fsm, v'.sh)
  {
    var ready := v.(fsm := v.fsm.(state := C.ReadyToPush));
    if !MayGrant(v.sh.manager, c, t1) {
      CI.TryPushKeeps(cfg, c, ready, t1, t2);
    }
  }

  lemma AskKeeps(cfg: Config, s: Split, id: nat, t1: real, t2: real)
    requires cfg.Valid() && SplitOk(cfg, s)
    requires id in s.plant.sh.timers.live && IsPush(s.plant.sh.timers.live[id].callback)
    ensures SplitOk(cfg, AskStep(s, id, t1, t2))
  {
    hide CI.Untouched, SI.Untouched, SplitOk, PhaseOk, NoAdjacent, MayGrant, AskHalf, CI.CornerBase, CI.NoPushTimer;
    var sh, callback := s.plant.sh, s.plant.sh.timers.live[id].callback;
    var c := callback.c;
    var v := C.CornerView(s.plant.corners.At(c), sh.Fired(id));
    var v' := AskHalf(c, v, callback.ApproachDone?, t1, t2);
    PhaseHolds(cfg, s, c);
    TimersFresh(cfg, s);
    PushTimerFired(cfg, c, s.phases.At(c), s.plant.corners.At(c), sh, id);
    AskHalfKeeps(cfg, c, v, callback.ApproachDone?, t1, t2);
    AskHalfExcludes(c, v, callback.ApproachDone?, t1, t2);
    forall d: CornerId | d != c
      ensures CI.Untouched(d, sh, v'.sh)
    {
      CI.FiredUntouched(sh, id, d);
      AskHalfUntouched(c, v, callback.ApproachDone?, t1, t2, d, 1);
      CI.UntouchedTwice(d, sh, v.sh, v'.sh);
    }
    forall n: StationId
      ensures SI.Untouched(n, sh, v'.sh)
    {
      FiredSpares(sh, id, n);
      AskHalfUntouched(c, v, callback.ApproachDone?, t1, t2, c, n);
      StationUntouchedTwice(n, sh, v.sh, v'.sh);
    }
    CornerActs(cfg, s, c, v', if MayGrant(sh.manager, c, t1) then Granted else Settled);
  }

  lemma AskHalfExcludes(c: CornerId, v: C.CornerView, approach: bool, t1: real, t2: real)
    requires NoAdjacent(v.sh.manager)
    ensures NoAdjacent(AskHalf(c, v, approach, t1, t2).sh.manager)
  {
    if MayGrant(v.sh.manager, c, t1) {
      ReserveExcludes(v.sh.manager, c, t1);
    }
  }

  lemma ExtendHalfKeeps(cfg: Config, c: CornerId, v: C.CornerView, t2: real)
    requires cfg.Valid() && PhaseOk(cfg, c, Granted, v.fsm, v.sh)
    ensures var v' := ExtendHalf(cfg, c, v, t2); PhaseOk(cfg, c, Settled, v'.fsm, v'.sh)
  {
    CI.BusyAppend(v.sh.log, Entry(t2, CornerUnit(c), UNKNOWN_PART, PushStart), CornerUnit(c));
  }

  lemma FreeHalfKeeps(cfg: Config, c: CornerId, v: C.CornerView, t1: real, t2: real)
    requires CI.CornerOk(cfg, c, v.fsm, v.sh) && v.fsm.state == C.Retracting
    ensures var v' := FreeHalf(c, v, t1, t2); PhaseOk(cfg, c, Freed, v'.fsm, v'.sh)
  {
    CI.BusyAppend(v.sh.log, Entry(t1, CornerUnit(c), UNKNOWN_PART, PushComplete), CornerUnit(c));
    CI.NotArmed(c, v.sh.timers);
  }

  lemma RestartHalfKeeps(cfg: Config, c: CornerId, v: C.CornerView)
    requires cfg.Valid() && PhaseOk(cfg, c, Freed, v.fsm, v.sh)
    ensures var v' := RestartHalf(cfg, c, v); PhaseOk(cfg, c, Settled, v'.fsm, v'.sh)
  {
    assert !v.sh.manager.waiting.At(c);
  }

  lemma HalfUntouched(cfg: Config, c: CornerId, v: C.CornerView, t1: real, t2: real, d: CornerId)
    requires d != c
    ensures CI.Untouched(d, v.sh, ExtendHalf(cfg, c, v, t2).sh)
    ensures CI.Untouched(d, v.sh, FreeHalf(c, v, t1, t2).sh)
    ensures CI.Untouched(d, v.sh, RestartHalf(cfg, c, v).sh)
  {
    hide History.IsBusy;
    CI.LogUntouched(v.sh.log, Entry(t2, CornerUnit(c), UNKNOWN_PART, PushStart), d);
    CI.LogUntouched(v.sh.log, Entry(t1, CornerUnit(c), UNKNOWN_PART, PushComplete), d);
  }

  lemma HalfSpares(cfg: Config, c: CornerId, v: C.CornerView, t1: real, t2: real, n: StationId)
    ensures SI.Untouched(n, v.sh, ExtendHalf(cfg, c, v, t2).sh)
    ensures SI.Untouched(n, v.sh, FreeHalf(c, v, t1, t2).sh)
    ensures SI.Untouched(n, v.sh, RestartHalf(cfg, c, v).sh)
  {
    hide SI.Marks;
    SI.MarksAppend(v.sh.log, Entry(t2, CornerUnit(c), UNKNOWN_PART, PushStart), n);
    SI.MarksAppend(v.sh.log, Entry(t1, CornerUnit(c), UNKNOWN_PART, PushComplete), n);
  }

  /** One of the other three halves, and the phase that it leaves. */
  lemma HalfKeeps(cfg: Config, s: Split, c: CornerId, v': C.CornerView, phase': Phase, t1: real, t2: real)
    requires SplitOk(cfg, s) && PhaseOk(cfg, c, phase', v'.fsm, v'.sh)
    requires var v := CornerAt(s.plant, c);
             v' == ExtendHalf(cfg, c, v, t2) || v' == FreeHalf(c, v, t1, t2) || v' == RestartHalf(cfg, c, v)
    ensures SplitOk(cfg, Split(WithCorner(s.plant, c, v'), s.phases.With(c, phase')))
  {
    PhaseHolds(cfg, s, c);
    HalfFrees(cfg, CornerAt(s.plant, c), c, v', t1, t2);
    hide CI.Untouched, SI.Untouched, SplitOk, PhaseOk, NoAdjacent, ExtendHalf, FreeHalf, RestartHalf;
    forall d: CornerId | d != c
      ensures CI.Untouched(d, s.plant.sh, v'.sh)
    {
      HalfUntouched(cfg, c, CornerAt(s.plant, c), t1, t2, d);
    }
    forall n: StationId
      ensures SI.Untouched(n, s.plant.sh, v'.sh)
    {
      HalfSpares(cfg, c, CornerAt(s.plant, c), t1, t2, n);
    }
    CornerActs(cfg, s, c, v', phase');
  }

  lemma HalfFrees(cfg: Config, v: C.CornerView, c: CornerId, v': C.CornerView, t1: real, t2: real)
    requires NoAdjacent(v.sh.manager)
    requires v' == ExtendHalf(cfg, c, v, t2) || v' == FreeHalf(c, v, t1, t2) || v' == RestartHalf(cfg, c, v)
    ensures NoAdjacent(v'.sh.manager)
  {
    ReleaseExcludes(v.sh.manager, v'.sh.manager);
  }

  lemma SplitNextKeeps(cfg: Config, s: Split, step: SplitStep)
    requires cfg.Valid() && SplitOk(cfg, s)
    ensures SplitOk(cfg, SplitNext(cfg, s, step))
  {
    hide SplitOk, Step, AskStep, ExtendHalf, FreeHalf, RestartHalf;
    match step
    case Whole(a) =>
      if !Halved(s.plant, a) && !(a.Deliver? && ConsumerInside(s)) {
        WholeKeeps(cfg, s, a);
      }
    case Ask(id, t1, t2) =>
      if id in s.plant.sh.timers.live && IsPush(s.plant.sh.timers.live[id].callback) {
        AskKeeps(cfg, s, id, t1, t2);
      } else {
        AskNothing(s, id, t1, t2);
      }
    case Extend(c, t2) =>
      if s.phases.At(c) == Granted {
        PhaseHolds(cfg, s, c);
        ExtendHalfKeeps(cfg, c, CornerAt(s.plant, c), t2);
        HalfKeeps(cfg, s, c, ExtendHalf(cfg, c, CornerAt(s.plant, c), t2), Settled, t2, t2);
      }
    case Free(c, t1, t2) =>
      if s.phases.At(c) == Settled && !ConsumerInside(s) && s.plant.corners.At(c).state == C.Retracting {
        PhaseHolds(cfg, s, c);
        FreeHalfKeeps(cfg, c, CornerAt(s.plant, c), t1, t2);
        HalfKeeps(cfg, s, c, FreeHalf(c, CornerAt(s.plant, c), t1, t2), Freed, t1, t2);
      }
    case Restart(c) =>
      if s.phases.At(c) == Freed {
        PhaseHolds(cfg, s, c);
        RestartHalfKeeps(cfg, c, CornerAt(s.plant, c));
        HalfKeeps(cfg, s, c, RestartHalf(cfg, c, CornerAt(s.plant, c)), Settled, 0.0, 0.0);
      }
  }

  lemma AskNothing(s: Split, id: nat, t1: real, t2: real)
    requires !(id in s.plant.sh.timers.live && IsPush(s.plant.sh.timers.live[id].callback))
    ensures AskStep(s, id, t1, t2) == s
  {
  }

  lemma {:induction false} SplitRunOk(cfg: Config, steps: seq<SplitStep>)
    requires cfg.Valid()
    ensures SplitOk(cfg, RunSplit(cfg, steps))
  {
    if steps == [] {
      StartOk(cfg);
      StartSplitOk(cfg);
    } else {
      SplitRunOk(cfg, Front(steps));
      SplitNextKeeps(cfg, RunSplit(cfg, Front(steps)), Last(steps));
    }
  }

  lemma StartSplitOk(cfg: Config)
    requires Ok(cfg, Start(cfg))
    ensures SplitOk(cfg, Split(Start(cfg), ALL_SETTLED))
  {
  }

  // ------------------------------------------------------------------------- safety

  /** Motors 5 to 8 drive the pushers of corners 1 to 4. */
  function Pusher(s: Split, c: CornerId): real {
    s.plant.sh.throttle[(4 + c) - 1]
  }

  lemma PusherOfPhase(cfg: Config, s: Split, c: CornerId)
    requires cfg.Valid() && SplitOk(cfg, s)
    ensures Pusher(s, c) > 0.0 <==> s.plant.corners.At(c).state == C.Extending
    ensures Pusher(s, c) < 0.0 <==> s.plant.corners.At(c).state == C.Retracting && s.phases.At(c) == Settled
    ensures Pusher(s, c) != 0.0 ==> s.plant.sh.manager.occupied.At(c)
  {
    PhaseHolds(cfg, s, c);
  }

  /** However the threads interleave between the halves, a pusher moves only while its corner is
      reserved, no two adjacent corners are reserved together, and adjacent pushers never move together. */
  lemma SplitMutualExclusion(cfg: Config, steps: seq<SplitStep>)
    requires cfg.Valid()
    ensures var s := RunSplit(cfg, steps);
            && (forall c: CornerId :: Pusher(s, c) > 0.0 <==> s.plant.corners.At(c).state == C.Extending)
            && (forall c: CornerId :: Pusher(s, c) < 0.0
                  <==> s.plant.corners.At(c).state == C.Retracting && s.phases.At(c) == Settled)
            && (forall c: CornerId :: Pusher(s, c) != 0.0 ==> s.plant.sh.manager.occupied.At(c))
            && (forall c: CornerId, d: CornerId :: Adjacent(c, d) ==>
                  !(s.plant.sh.manager.occupied.At(c) && s.plant.sh.manager.occupied.At(d)))
            && (forall c: CornerId, d: CornerId :: Adjacent(c, d) ==> Pusher(s, c) == 0.0 || Pusher(s, d) == 0.0)
  {
    hide SplitOk, Pusher;
    var s := RunSplit(cfg, steps);
    SplitRunOk(cfg, steps);
    forall c: CornerId
      ensures Pusher(s, c) > 0.0 <==> s.plant.corners.At(c).state == C.Extending
      ensures Pusher(s, c) < 0.0 <==> s.plant.corners.At(c).state == C.Retracting && s.phases.At(c) == Settled
      ensures Pusher(s, c) != 0.0 ==> s.plant.sh.manager.occupied.At(c)
    {
      PusherOfPhase(cfg, s, c);
    }
    PhaseHolds(cfg, s, 1);
    NoAdjacentMeans(s.plant.sh.manager);
  }
}
