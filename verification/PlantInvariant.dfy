/** The invariant of the whole plant, which every step keeps, whatever is delivered and whenever
    timers fire. */
module PlantInvariant {
  import opened Basics
  import opened TimerPool
  import opened Collision
  import opened SharedState
  import opened Plant
  import CI = CornerInvariant
  import SI = StationInvariant
  import History
  import C = Corners
  import S = Stations

  /** The reserved corners lie on one diagonal. */
  predicate NoAdjacent(m: Manager) {
    (!m.occupied.c1 && !m.occupied.c3) || (!m.occupied.c2 && !m.occupied.c4)
  }

  /** Which is to say that no two adjacent corners are reserved together. */
  lemma NoAdjacentMeans(m: Manager)
    ensures NoAdjacent(m)
            <==> forall c: CornerId, d: CornerId :: Adjacent(c, d) ==> !(m.occupied.At(c) && m.occupied.At(d))
  {
    assert Adjacent(1, 2) && Adjacent(1, 4) && Adjacent(3, 2) && Adjacent(3, 4);
  }

  ghost predicate Ok(cfg: Config, p: Plant) {
    && (forall c: CornerId :: CI.CornerOk(cfg, c, p.corners.At(c), p.sh))
    && (forall n: StationId :: SI.StationOk(cfg, n, p.stations.At(n), p.sh))
    && NoAdjacent(p.sh.manager)
  }

  lemma CornerHolds(cfg: Config, p: Plant, c: CornerId)
    requires Ok(cfg, p)
    ensures CI.CornerOk(cfg, c, p.corners.At(c), p.sh)
  {
  }

  lemma StationHolds(cfg: Config, p: Plant, n: StationId)
    requires Ok(cfg, p)
    ensures SI.StationOk(cfg, n, p.stations.At(n), p.sh)
  {
  }

  // -------------------------------------------------------- mutual exclusion

  lemma ReserveExcludes(m: Manager, c: CornerId, now: real)
    requires NoAdjacent(m) && MayGrant(m, c, now)
    ensures NoAdjacent(Reserve(m, c))
  {
  }

  lemma ReleaseExcludes(m: Manager, m': Manager)
    requires NoAdjacent(m)
    requires forall c: CornerId :: m'.occupied.At(c) ==> m.occupied.At(c)
    ensures NoAdjacent(m')
  {
    assert m'.occupied.At(1) ==> m.occupied.At(1);
    assert m'.occupied.At(2) ==> m.occupied.At(2);
    assert m'.occupied.At(3) ==> m.occupied.At(3);
    assert m'.occupied.At(4) ==> m.occupied.At(4);
  }

  lemma CornerReactExcludes(cfg: Config, c: CornerId, v: C.CornerView, barrier: Barrier, t1: real, t2: real)
    requires NoAdjacent(v.sh.manager)
    ensures NoAdjacent(C.React(cfg, c, v, barrier, t1, t2).sh.manager)
  {
    ReleaseExcludes(v.sh.manager, C.React(cfg, c, v, barrier, t1, t2).sh.manager);
  }

  lemma CornerAwakeExcludes(cfg: Config, c: CornerId, v: C.CornerView, callback: Callback, t1: real, t2: real)
    requires C.OfCorner(callback, c) && NoAdjacent(v.sh.manager)
    ensures NoAdjacent(C.Awake(cfg, c, v, callback, t1, t2).sh.manager)
  {
    if MayGrant(v.sh.manager, c, t1) {
      ReserveExcludes(v.sh.manager, c, t1);
    }
  }

  // --------------------------------------------- steps of one side seen from the other

  lemma CornerReactSpares(cfg: Config, c: CornerId, v: C.CornerView, barrier: Barrier, t1: real, t2: real, n: StationId)
    requires CI.CornerOk(cfg, c, v.fsm, v.sh)
    ensures SI.Untouched(n, v.sh, C.React(cfg, c, v, barrier, t1, t2).sh)
  {
    hide SI.Marks;
    match v.fsm.state
    case WaitingForConfirmation => ConfirmationSpares(cfg, c, v, barrier, n);
    case Retracting => SI.MarksAppend(v.sh.log, Entry(t1, CornerUnit(c), UNKNOWN_PART, PushComplete), n);
    case _ =>
  }

  lemma ConfirmationSpares(cfg: Config, c: CornerId, v: C.CornerView, barrier: Barrier, n: StationId)
    requires CI.Handshake(c, v.fsm, v.sh)
    ensures SI.Untouched(n, v.sh, C.HandleWaiting(cfg, c, v, barrier).sh)
  {
    hide SI.Marks;
  }

  lemma CornerAwakeSpares(cfg: Config, c: CornerId, v: C.CornerView, callback: Callback, t1: real, t2: real, n: StationId)
    requires C.OfCorner(callback, c) && v.sh.timers.Fresh()
    ensures SI.Untouched(n, v.sh, C.Awake(cfg, c, v, callback, t1, t2).sh)
  {
    hide SI.Marks;
    SI.MarksAppend(v.sh.log, Entry(t2, CornerUnit(c), UNKNOWN_PART, PushStart), n);
  }

  lemma StationReactSpares(cfg: Config, n: StationId, v: S.StationView, d: Delivery, t1: real, t2: real, c: CornerId)
    requires v.sh.timers.Fresh()
    ensures CI.Untouched(c, v.sh, S.React(cfg, n, v, d, t1, t2).sh)
    ensures S.React(cfg, n, v, d, t1, t2).sh.manager == v.sh.manager
  {
    hide History.IsBusy;
    match v.fsm.state
    case Idle =>
      CI.LogUntouched(v.sh.log, Entry(t1, StationUnit(n), UNKNOWN_PART, ErrorNoPartId), c);
      if d.part.Some? {
        CI.LogUntouched(v.sh.log, Entry(t1, StationUnit(n), d.part.value, Enter), c);
      }
    case Entering =>
      CI.LogUntouched(v.sh.log, Entry(t1, StationUnit(n), S.PartOf(v.fsm), ProcessStart), c);
    case _ =>
  }

  lemma StationAwakeSpares(cfg: Config, n: StationId, v: S.StationView, callback: Callback, t1: real, c: CornerId)
    requires S.OfStation(callback, n) && v.sh.timers.Fresh()
    ensures CI.Untouched(c, v.sh, S.Awake(cfg, n, v, callback, t1).sh)
    ensures S.Awake(cfg, n, v, callback, t1).sh.manager == v.sh.manager
  {
    hide History.IsBusy;
    CI.LogUntouched(v.sh.log, Entry(t1, StationUnit(n), S.PartOf(v.fsm), ProcessEnd), c);
    CI.LogUntouched(v.sh.log, Entry(t1, StationUnit(n), S.PartOf(v.fsm), Exit), c);
  }

  // ------------------------------------------------------------- the inductive step

  lemma CornerDeliverKeeps(cfg: Config, p: Plant, c: CornerId, barrier: Barrier, t1: real, t2: real)
    requires cfg.Valid() && Ok(cfg, p)
    ensures Ok(cfg, WithCorner(p, c, C.React(cfg, c, CornerAt(p, c), barrier, t1, t2)))
  {
    var v := CornerAt(p, c);
    var v' := C.React(cfg, c, v, barrier, t1, t2);
    var p' := WithCorner(p, c, v');
    CornerReactExcludes(cfg, c, v, barrier, t1, t2);
    forall d: CornerId
      ensures CI.CornerOk(cfg, d, p'.corners.At(d), p'.sh)
    {
      if d == c {
        CI.ReactKeeps(cfg, c, v, barrier, t1, t2);
      } else {
        CI.ReactUntouched(cfg, c, v, barrier, t1, t2, d);
        CI.UntouchedKeeps(cfg, d, p.corners.At(d), p.sh, p'.sh);
      }
    }
    forall n: StationId
      ensures SI.StationOk(cfg, n, p'.stations.At(n), p'.sh)
    {
      CornerReactSpares(cfg, c, v, barrier, t1, t2, n);
      SI.UntouchedKeeps(cfg, n, p.stations.At(n), p.sh, p'.sh);
    }
  }

  lemma StationDeliverKeeps(cfg: Config, p: Plant, n: StationId, d: Delivery, t1: real, t2: real)
    requires cfg.Valid() && Ok(cfg, p)
    ensures Ok(cfg, WithStation(p, n, S.React(cfg, n, StationAt(p, n), d, t1, t2)))
  {
    var v := StationAt(p, n);
    var v' := S.React(cfg, n, v, d, t1, t2);
    var p' := WithStation(p, n, v');
    assert p.sh.timers.Fresh() by {
      assert CI.CornerOk(cfg, 1, p.corners.At(1), p.sh);
    }
    forall c: CornerId
      ensures CI.CornerOk(cfg, c, p'.corners.At(c), p'.sh)
    {
      StationReactSpares(cfg, n, v, d, t1, t2, c);
      CI.UntouchedKeeps(cfg, c, p.corners.At(c), p.sh, p'.sh);
    }
    StationReactSpares(cfg, n, v, d, t1, t2, 1);
    forall m: StationId
      ensures SI.StationOk(cfg, m, p'.stations.At(m), p'.sh)
    {
      if m == n {
        SI.ReactKeeps(cfg, n, v, d, t1, t2);
      } else {
        SI.ReactUntouched(cfg, n, v, d, t1, t2, m);
        SI.UntouchedKeeps(cfg, m, p.stations.At(m), p.sh, p'.sh);
      }
    }
  }

  lemma FiredSpares(sh: Shared, id: nat, n: StationId)
    requires id in sh.timers.live && !S.OfStation(sh.timers.live[id].callback, n)
    ensures SI.Untouched(n, sh, sh.Fired(id))
  {
  }

  lemma CornerFireKeeps(cfg: Config, p: Plant, c: CornerId, id: nat, t1: real, t2: real)
    requires cfg.Valid() && Ok(cfg, p)
    requires id in p.sh.timers.live && C.OfCorner(p.sh.timers.live[id].callback, c)
    ensures Ok(cfg, FireStep(cfg, p, id, t1, t2))
  {
    var callback := p.sh.timers.live[id].callback;
    var sh1 := p.sh.Fired(id);
    var v := C.CornerView(p.corners.At(c), sh1);
    var v' := C.Awake(cfg, c, v, callback, t1, t2);
    assert FireStep(cfg, p, id, t1, t2) == WithCorner(p, c, v');
    assert sh1.timers.Fresh() by {
      assert CI.CornerOk(cfg, c, p.corners.At(c), p.sh);
    }
    CornerAwakeExcludes(cfg, c, v, callback, t1, t2);
    forall d: CornerId
      ensures CI.CornerOk(cfg, d, WithCorner(p, c, v').corners.At(d), v'.sh)
    {
      if d == c {
        CI.AwakeKeeps(cfg, c, p.corners.At(c), p.sh, id, t1, t2);
      } else {
        CI.FiredUntouched(p.sh, id, d);
        CI.UntouchedKeeps(cfg, d, p.corners.At(d), p.sh, sh1);
        CI.AwakeUntouched(cfg, c, v, callback, t1, t2, d);
        CI.UntouchedKeeps(cfg, d, p.corners.At(d), sh1, v'.sh);
      }
    }
    forall n: StationId
      ensures SI.StationOk(cfg, n, p.stations.At(n), v'.sh)
    {
      FiredSpares(p.sh, id, n);
      SI.UntouchedKeeps(cfg, n, p.stations.At(n), p.sh, sh1);
      CornerAwakeSpares(cfg, c, v, callback, t1, t2, n);
      SI.UntouchedKeeps(cfg, n, p.stations.At(n), sh1, v'.sh);
    }
  }

  lemma StationFireKeeps(cfg: Config, p: Plant, n: StationId, id: nat, t1: real, t2: real)
    requires cfg.Valid() && Ok(cfg, p)
    requires id in p.sh.timers.live && S.OfStation(p.sh.timers.live[id].callback, n)
    ensures Ok(cfg, FireStep(cfg, p, id, t1, t2))
  {
    var callback := p.sh.timers.live[id].callback;
    var sh1 := p.sh.Fired(id);
    var v := S.StationView(p.stations.At(n), sh1);
    var v' := S.Awake(cfg, n, v, callback, t1);
    assert FireStep(cfg, p, id, t1, t2) == WithStation(p, n, v');
    assert sh1.timers.Fresh() by {
      assert SI.StationOk(cfg, n, p.stations.At(n), p.sh);
    }
    StationAwakeSpares(cfg, n, v, callback, t1, 1);
    forall c: CornerId
      ensures CI.CornerOk(cfg, c, p.corners.At(c), v'.sh)
    {
      CI.FiredUntouched(p.sh, id, c);
      CI.UntouchedKeeps(cfg, c, p.corners.At(c), p.sh, sh1);
      StationAwakeSpares(cfg, n, v, callback, t1, c);
      CI.UntouchedKeeps(cfg, c, p.corners.At(c), sh1, v'.sh);
    }
    forall m: StationId
      ensures SI.StationOk(cfg, m, WithStation(p, n, v').stations.At(m), v'.sh)
    {
      if m == n {
        SI.AwakeKeeps(cfg, n, p.stations.At(n), p.sh, id, t1);
      } else {
        FiredSpares(p.sh, id, m);
        SI.UntouchedKeeps(cfg, m, p.stations.At(m), p.sh, sh1);
        SI.AwakeUntouched(cfg, n, v, callback, t1, m);
        SI.UntouchedKeeps(cfg, m, p.stations.At(m), sh1, v'.sh);
      }
    }
  }

  lemma FireUntouches(cfg: Config, p: Plant, id: nat, t1: real, t2: real, c: CornerId)
    requires id in p.sh.timers.live && !C.OfCorner(p.sh.timers.live[id].callback, c)
    requires p.sh.timers.Fresh()
    ensures CI.Untouched(c, p.sh, FireStep(cfg, p, id, t1, t2).sh)
  {
    var callback, sh1 := p.sh.timers.live[id].callback, p.sh.Fired(id);
    CI.FiredUntouched(p.sh, id, c);
    assert sh1.timers.Fresh();
    hide C.Awake, S.Awake, CI.Untouched;
    match callback {
      case ApproachDone(e) => CI.AwakeUntouched(cfg, e, C.CornerView(p.corners.At(e), sh1), callback, t1, t2, c);
      case RetryPush(e) => CI.AwakeUntouched(cfg, e, C.CornerView(p.corners.At(e), sh1), callback, t1, t2, c);
      case HandshakeLapsed(e) => CI.AwakeUntouched(cfg, e, C.CornerView(p.corners.At(e), sh1), callback, t1, t2, c);
      case ProcessDone(n) => StationAwakeSpares(cfg, n, S.StationView(p.stations.At(n), sh1), callback, t1, c);
      case ExitDone(n, _) => StationAwakeSpares(cfg, n, S.StationView(p.stations.At(n), sh1), callback, t1, c);
    }
    CI.UntouchedTwice(c, p.sh, sh1, FireStep(cfg, p, id, t1, t2).sh);
  }

  lemma ReportKeeps(cfg: Config, p: Plant, unit: Unit, part: string, error: Activity, now: real)
    requires Ok(cfg, p) && IsReport(error)
    ensures Ok(cfg, p.(sh := p.sh.Logged(unit, part, error, now)))
  {
    var e := Entry(now, unit, part, error);
    var sh' := p.sh.Logged(unit, part, error, now);
    forall c: CornerId
      ensures CI.CornerOk(cfg, c, p.corners.At(c), sh')
    {
      CI.BusyAppend(p.sh.log, e, CornerUnit(c));
      CI.UntouchedKeeps(cfg, c, p.corners.At(c), p.sh, sh');
    }
    forall n: StationId
      ensures SI.StationOk(cfg, n, p.stations.At(n), sh')
    {
      SI.MarksAppend(p.sh.log, e, n);
      SI.UntouchedKeeps(cfg, n, p.stations.At(n), p.sh, sh');
    }
  }

  /** Every step keeps the invariant. */
  lemma StepKeeps(cfg: Config, p: Plant, a: Action)
    requires cfg.Valid() && Ok(cfg, p)
    ensures Ok(cfg, Step(cfg, p, a))
  {
    match a
    case Deliver(d, t1, t2) =>
      match d.event.place {
        case AtStation(n) => if 1 <= n <= 2 { StationDeliverKeeps(cfg, p, n, d, t1, t2); }
        case AtCorner(c) => if 1 <= c <= 4 { CornerDeliverKeeps(cfg, p, c, d.event.barrier, t1, t2); }
        case _ =>
      }
    case Fire(id, t1, t2) =>
      if id in p.sh.timers.live {
        match p.sh.timers.live[id].callback {
          case ApproachDone(c) => CornerFireKeeps(cfg, p, c, id, t1, t2);
          case RetryPush(c) => CornerFireKeeps(cfg, p, c, id, t1, t2);
          case HandshakeLapsed(c) => CornerFireKeeps(cfg, p, c, id, t1, t2);
          case ProcessDone(n) => StationFireKeeps(cfg, p, n, id, t1, t2);
          case ExitDone(n, _) => StationFireKeeps(cfg, p, n, id, t1, t2);
        }
      }
    case Report(unit, part, error, t1, _) =>
      if IsReport(error) {
        ReportKeeps(cfg, p, unit, part, error, t1);
      }
  }

  lemma StartOk(cfg: Config)
    requires cfg.Valid()
    ensures Ok(cfg, Start(cfg))
  {
    var p := Start(cfg);
    forall n: StationId
      ensures SI.StationOk(cfg, n, p.stations.At(n), p.sh)
    {
      assert SI.Marks([], n) == [];
      assert SI.InVisit([], 0, "");
    }
  }

  lemma {:induction false} RunOk(cfg: Config, actions: seq<Action>)
    requires cfg.Valid()
    ensures Ok(cfg, Run(cfg, actions))
  {
    if actions == [] {
      StartOk(cfg);
    } else {
      RunOk(cfg, Front(actions));
      StepKeeps(cfg, Run(cfg, Front(actions)), Last(actions));
    }
  }
}
