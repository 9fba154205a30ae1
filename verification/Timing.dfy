/** Whole-run theorems about time: the log in order, shared corner utilisation, spaced grants. */
module Timing {
  import opened Basics
  import opened TimerPool
  import opened Collision
  import opened SharedState
  import opened History
  import opened Plant
  import opened PlantInvariant
  import Metrics
  import C = Corners
  import S = Stations
  import CI = CornerInvariant

  // ------------------------------------------------------------------ clock and log

  /** The last clock reading of a run that began at `start`. */
  function Clock(actions: seq<Action>, start: real): real {
    if actions == [] then start else Last(actions).t2
  }

  lemma ForwardFront(actions: seq<Action>, start: real)
    requires actions != [] && Forward(actions, start)
    ensures Forward(Front(actions), start)
    ensures start <= Clock(Front(actions), start) <= Last(actions).t1 <= Last(actions).t2
  {
  }

  /** One step writes at most one entry, stamped with one of its two clock readings. */
  ghost predicate LogStep(log: seq<Entry>, log': seq<Entry>, a: Action) {
    log' == log || exists e: Entry :: log' == log + [e] && (e.time == a.t1 || e.time == a.t2)
  }

  lemma StepWritesOnce(cfg: Config, p: Plant, a: Action)
    ensures LogStep(p.sh.log, Step(cfg, p, a).sh.log, a)
  {
    var log' := Step(cfg, p, a).sh.log;
    if log' != p.sh.log {
      assert log' == p.sh.log + [Last(log')];
    }
  }

  /** Under a forward clock the log is in time order and lies within the run. */
  lemma {:induction false} LogInOrder(cfg: Config, actions: seq<Action>, start: real)
    requires Forward(actions, start)
    ensures var log := Run(cfg, actions).sh.log;
            Ordered(log) && Within(log, start, Clock(actions, start))
  {
    if actions != [] {
      ForwardFront(actions, start);
      LogInOrder(cfg, Front(actions), start);
      StepWritesOnce(cfg, Run(cfg, Front(actions)), Last(actions));
    }
  }

  // ------------------------------------------------------------- corner utilisation

  lemma {:induction false} NeverBothPush(cfg: Config, actions: seq<Action>, c: CornerId, d: CornerId)
    requires cfg.Valid() && Adjacent(c, d)
    ensures NeverBothBusy(Run(cfg, actions).sh.log, CornerUnit(c), CornerUnit(d))
  {
    var log' := Run(cfg, actions).sh.log;
    if actions == [] {
      assert log' == [];
    } else {
      var log := Run(cfg, Front(actions)).sh.log;
      NeverBothPush(cfg, Front(actions), c, d);
      StepWritesOnce(cfg, Run(cfg, Front(actions)), Last(actions));
      NotBothNow(cfg, actions, c, d);
      forall k | 0 <= k <= |log'|
        ensures !(IsBusy(log'[..k], CornerUnit(c)) && IsBusy(log'[..k], CornerUnit(d)))
      {
        if k <= |log| {
          assert log'[..k] == log[..k];
        } else {
          assert log'[..k] == log';
        }
      }
    }
  }

  lemma NotBothNow(cfg: Config, actions: seq<Action>, c: CornerId, d: CornerId)
    requires cfg.Valid() && Adjacent(c, d)
    ensures var log := Run(cfg, actions).sh.log; !(IsBusy(log, CornerUnit(c)) && IsBusy(log, CornerUnit(d)))
  {
    RunOk(cfg, actions);
    var p := Run(cfg, actions);
    assert CI.CornerOk(cfg, c, p.corners.At(c), p.sh) && CI.CornerOk(cfg, d, p.corners.At(d), p.sh);
  }

  /** What the logger reports for a corner when queried at `now`. */
  function Utilization(start: real, log: seq<Entry>, c: CornerId, now: real): real {
    Percent(Metrics.Replay(start, log).corners.At(c).Time(now), now - start)
  }

  lemma UtilizationIsShare(start: real, log: seq<Entry>, c: CornerId, now: real)
    ensures Utilization(start, log, c, now) == Percent(BusyOver(log, CornerUnit(c), now), now - start)
  {
    BusyTimeIsBusyOver(start, log, CornerUnit(c), now);
  }

  lemma PercentShared(x: real, y: real, runtime: real)
    requires 0.0 <= x && 0.0 <= y && x + y <= runtime
    ensures 0.0 <= Percent(x, runtime) && 0.0 <= Percent(y, runtime)
    ensures Percent(x, runtime) + Percent(y, runtime) <= 100.0
  {
    PercentBounds(x, runtime);
    PercentBounds(y, runtime);
    if runtime > 0.0 {
      ShareBound(x + y, runtime);
      assert x / runtime + y / runtime == (x + y) / runtime;
    }
  }

  /** The busy times of adjacent corners, open intervals included, fit into the run time. */
  lemma AdjacentBusyTimes(cfg: Config, actions: seq<Action>, start: real, now: real, c: CornerId, d: CornerId)
    requires cfg.Valid() && Adjacent(c, d)
    requires Forward(actions, start) && Clock(actions, start) <= now
    ensures var log := Run(cfg, actions).sh.log;
            && 0.0 <= BusyOver(log, CornerUnit(c), now)
            && 0.0 <= BusyOver(log, CornerUnit(d), now)
            && BusyOver(log, CornerUnit(c), now) + BusyOver(log, CornerUnit(d), now) <= now - start
  {
    var log := Run(cfg, actions).sh.log;
    LogInOrder(cfg, actions, start);
    NeverBothPush(cfg, actions, c, d);
    ClockStarts(actions, start);
    ExclusiveBusyTimes(log, CornerUnit(c), CornerUnit(d), start, now);
    BusyOverBounded(log, CornerUnit(c), start, now);
    BusyOverBounded(log, CornerUnit(d), start, now);
  }

  lemma ClockStarts(actions: seq<Action>, start: real)
    requires Forward(actions, start)
    ensures start <= Clock(actions, start)
  {
  }

  /** Adjacent corners share the run time: at any query their utilisations sum to at most 100 %. */
  lemma AdjacentUtilization(cfg: Config, actions: seq<Action>, start: real, now: real, c: CornerId, d: CornerId)
    requires cfg.Valid() && Adjacent(c, d)
    requires Forward(actions, start) && Clock(actions, start) <= now
    ensures var log := Run(cfg, actions).sh.log;
            && 0.0 <= Utilization(start, log, c, now)
            && 0.0 <= Utilization(start, log, d, now)
            && Utilization(start, log, c, now) + Utilization(start, log, d, now) <= 100.0
  {
    var log := Run(cfg, actions).sh.log;
    AdjacentBusyTimes(cfg, actions, start, now, c, d);
    UtilizationIsShare(start, log, c, now);
    UtilizationIsShare(start, log, d, now);
    PercentShared(BusyOver(log, CornerUnit(c), now), BusyOver(log, CornerUnit(d), now), now - start);
  }

  /** All four corners together report at most 200 %. */
  lemma TotalUtilization(cfg: Config, actions: seq<Action>, start: real, now: real)
    requires cfg.Valid()
    requires Forward(actions, start) && Clock(actions, start) <= now
    ensures var log := Run(cfg, actions).sh.log;
            Utilization(start, log, 1, now) + Utilization(start, log, 2, now)
            + Utilization(start, log, 3, now) + Utilization(start, log, 4, now) <= 200.0
  {
    AdjacentUtilization(cfg, actions, start, now, 1, 2);
    AdjacentUtilization(cfg, actions, start, now, 3, 4);
  }

  // ----------------------------------------------------------- grants and releases

  /** The times at which corner `c` logged the start of a push. */
  function PushStarts(log: seq<Entry>, c: CornerId): seq<real> {
    if log == [] then []
    else if Opens(Last(log), CornerUnit(c)) then PushStarts(Front(log), c) + [Last(log).time]
    else PushStarts(Front(log), c)
  }

  lemma PushStartsAppend(log: seq<Entry>, e: Entry, c: CornerId)
    ensures PushStarts(log + [e], c) ==
            if Opens(e, CornerUnit(c)) then PushStarts(log, c) + [e.time] else PushStarts(log, c)
  {
    AppendFront(log, e);
  }

  predicate Quiet(c: CornerId, sh: Shared, sh': Shared) {
    && sh'.manager.occupied.At(c) == sh.manager.occupied.At(c)
    && sh'.manager.lastUsed.At(c) == sh.manager.lastUsed.At(c)
    && PushStarts(sh'.log, c) == PushStarts(sh.log, c)
  }

  predicate Grants(c: CornerId, sh: Shared, sh': Shared, t1: real, t2: real) {
    && MayGrant(sh.manager, c, t1) && sh'.manager.occupied.At(c)
    && sh'.manager.lastUsed.At(c) == sh.manager.lastUsed.At(c)
    && PushStarts(sh'.log, c) == PushStarts(sh.log, c) + [t2]
  }

  predicate Releases(c: CornerId, sh: Shared, sh': Shared, t2: real) {
    && sh.manager.occupied.At(c) && !sh'.manager.occupied.At(c)
    && sh'.manager.lastUsed.At(c) == t2
    && PushStarts(sh'.log, c) == PushStarts(sh.log, c)
  }

  lemma ReactEffect(cfg: Config, d: CornerId, v: C.CornerView, barrier: Barrier, t1: real, t2: real, c: CornerId)
    requires CI.CornerOk(cfg, d, v.fsm, v.sh)
    ensures var sh' := C.React(cfg, d, v, barrier, t1, t2).sh;
            Quiet(c, v.sh, sh') || (c == d && Releases(c, v.sh, sh', t2))
  {
    hide PushStarts;
    if v.fsm.state == C.Retracting {
      PushStartsAppend(v.sh.log, Entry(t1, CornerUnit(d), UNKNOWN_PART, PushComplete), c);
    }
  }

  lemma AwakeEffect(cfg: Config, d: CornerId, v: C.CornerView, callback: Callback, t1: real, t2: real, c: CornerId)
    requires C.OfCorner(callback, d)
    ensures var sh' := C.Awake(cfg, d, v, callback, t1, t2).sh;
            Quiet(c, v.sh, sh') || (c == d && Grants(c, v.sh, sh', t1, t2))
  {
    PushStartsAppend(v.sh.log, Entry(t2, CornerUnit(d), UNKNOWN_PART, PushStart), c);
  }

  lemma OtherEntry(log: seq<Entry>, e: Entry, c: CornerId)
    requires e.unit != CornerUnit(c) || e.activity != PushStart
    ensures PushStarts(log + [e], c) == PushStarts(log, c)
  {
    PushStartsAppend(log, e, c);
  }

  lemma StationReactEffect(cfg: Config, n: StationId, v: S.StationView, d: Delivery, t1: real, t2: real, c: CornerId)
    ensures Quiet(c, v.sh, S.React(cfg, n, v, d, t1, t2).sh)
  {
    match v.fsm.state
    case Idle =>
      OtherEntry(v.sh.log, Entry(t1, StationUnit(n), UNKNOWN_PART, ErrorNoPartId), c);
      if d.part.Some? {
        OtherEntry(v.sh.log, Entry(t1, StationUnit(n), d.part.value, Enter), c);
      }
    case Entering =>
      OtherEntry(v.sh.log, Entry(t1, StationUnit(n), S.PartOf(v.fsm), ProcessStart), c);
    case _ =>
  }

  lemma StationAwakeEffect(cfg: Config, n: StationId, v: S.StationView, callback: Callback, t1: real, c: CornerId)
    requires S.OfStation(callback, n)
    ensures Quiet(c, v.sh, S.Awake(cfg, n, v, callback, t1).sh)
  {
    OtherEntry(v.sh.log, Entry(t1, StationUnit(n), S.PartOf(v.fsm), ProcessEnd), c);
    OtherEntry(v.sh.log, Entry(t1, StationUnit(n), S.PartOf(v.fsm), Exit), c);
  }

  ghost predicate Effect(c: CornerId, sh: Shared, sh': Shared, t1: real, t2: real) {
    Quiet(c, sh, sh') || Grants(c, sh, sh', t1, t2) || Releases(c, sh, sh', t2)
  }

  lemma FireEffect(cfg: Config, p: Plant, id: nat, t1: real, t2: real, c: CornerId)
    ensures Effect(c, p.sh, FireStep(cfg, p, id, t1, t2).sh, t1, t2)
  {
    if id in p.sh.timers.live {
      var callback, sh1 := p.sh.timers.live[id].callback, p.sh.Fired(id);
      match callback {
        case ApproachDone(d) => AwakeEffect(cfg, d, C.CornerView(p.corners.At(d), sh1), callback, t1, t2, c);
        case RetryPush(d) => AwakeEffect(cfg, d, C.CornerView(p.corners.At(d), sh1), callback, t1, t2, c);
        case HandshakeLapsed(d) => AwakeEffect(cfg, d, C.CornerView(p.corners.At(d), sh1), callback, t1, t2, c);
        case ProcessDone(n) => StationAwakeEffect(cfg, n, S.StationView(p.stations.At(n), sh1), callback, t1, c);
        case ExitDone(n, _) => StationAwakeEffect(cfg, n, S.StationView(p.stations.At(n), sh1), callback, t1, c);
      }
    }
  }

  lemma DeliverEffect(cfg: Config, p: Plant, d: Delivery, t1: real, t2: real, c: CornerId)
    requires Ok(cfg, p)
    ensures Effect(c, p.sh, DeliverStep(cfg, p, d, t1, t2).sh, t1, t2)
  {
    match d.event.place
    case AtStation(n) =>
      if 1 <= n <= 2 {
        StationReactEffect(cfg, n, StationAt(p, n), d, t1, t2, c);
      }
    case AtCorner(from) =>
      if 1 <= from <= 4 {
        assert CI.CornerOk(cfg, from, p.corners.At(from), p.sh);
        ReactEffect(cfg, from, CornerAt(p, from), d.event.barrier, t1, t2, c);
      }
    case _ =>
  }

  /** Seen from one corner, a step is a grant, a release, or neither. */
  lemma StepEffect(cfg: Config, p: Plant, a: Action, c: CornerId)
    requires Ok(cfg, p)
    ensures Effect(c, p.sh, Step(cfg, p, a).sh, a.t1, a.t2)
  {
    match a
    case Deliver(d, t1, t2) => DeliverEffect(cfg, p, d, t1, t2, c);
    case Fire(id, t1, t2) => FireEffect(cfg, p, id, t1, t2, c);
    case Report(unit, part, error, t1, t2) =>
      if IsReport(error) {
        OtherEntry(p.sh.log, Entry(t1, unit, part, error), c);
      }
  }

  ghost predicate PushSpaced(c: CornerId, sh: Shared, now: real) {
    var ts := PushStarts(sh.log, c);
    && Spaced(ts, 2.0)
    && (forall i :: 0 <= i < |ts| ==> ts[i] <= now)
    && (!sh.manager.occupied.At(c) ==> forall i :: 0 <= i < |ts| ==> ts[i] <= sh.manager.lastUsed.At(c))
  }

  lemma {:induction false} RunPushSpaced(cfg: Config, actions: seq<Action>, start: real, c: CornerId)
    requires cfg.Valid() && Forward(actions, start)
    ensures PushSpaced(c, Run(cfg, actions).sh, Clock(actions, start))
  {
    if actions == [] {
      assert PushStarts([], c) == [];
    } else {
      var p, a := Run(cfg, Front(actions)), Last(actions);
      ForwardFront(actions, start);
      RunPushSpaced(cfg, Front(actions), start, c);
      RunOk(cfg, Front(actions));
      StepEffect(cfg, p, a, c);
      SpacedStep(c, p.sh, Step(cfg, p, a).sh, Clock(Front(actions), start), a.t1, a.t2);
    }
  }

  lemma SpacedStep(c: CornerId, sh: Shared, sh': Shared, now: real, t1: real, t2: real)
    requires PushSpaced(c, sh, now) && now <= t1 <= t2
    requires Effect(c, sh, sh', t1, t2)
    ensures PushSpaced(c, sh', t2)
  {
  }

  /** The elements of a list that lie in the closed window from `low` to `high`. */
  function InWindow(ts: seq<real>, low: real, high: real): seq<real> {
    if ts == [] then []
    else if low <= Last(ts) <= high then InWindow(Front(ts), low, high) + [Last(ts)]
    else InWindow(Front(ts), low, high)
  }

  lemma {:induction false} WindowMembers(ts: seq<real>, low: real, high: real)
    ensures forall x :: x in InWindow(ts, low, high) <==> x in ts && low <= x <= high
  {
    if ts != [] {
      WindowMembers(Front(ts), low, high);
      assert ts == Front(ts) + [Last(ts)];
    }
  }

  lemma {:induction false} WindowSpaced(ts: seq<real>, gap: real, low: real, high: real)
    requires Spaced(ts, gap)
    ensures Spaced(InWindow(ts, low, high), gap)
  {
    if ts != [] {
      var front, inner := Front(ts), InWindow(Front(ts), low, high);
      WindowSpaced(front, gap, low, high);
      WindowMembers(front, low, high);
      forall i | 0 <= i < |inner|
        ensures Last(ts) - inner[i] >= gap
      {
        assert inner[i] in inner && inner[i] in front;
        var j :| 0 <= j < |front| && front[j] == inner[i];
        assert ts[j] == inner[i] && Last(ts) - ts[j] >= gap;
      }
    }
  }

  /** Grants a re-use interval apart span at least their intervals. */
  lemma {:induction false} SpacedSpan(ts: seq<real>)
    requires ts != [] && Spaced(ts, 2.0)
    ensures Last(ts) - ts[0] >= 2.0 * (|ts| - 1) as real
  {
    if |ts| > 1 {
      SpacedSpan(Front(ts));
      assert Last(ts) - Last(Front(ts)) >= 2.0;
    }
  }

  lemma SpacedCount(ts: seq<real>, low: real, length: real)
    requires Spaced(ts, 2.0) && length >= 0.0
    ensures |InWindow(ts, low, low + length)| <= 1 + (length / 2.0).Floor
  {
    var inside := InWindow(ts, low, low + length);
    WindowSpaced(ts, 2.0, low, low + length);
    WindowMembers(ts, low, low + length);
    if inside != [] {
      SpacedSpan(inside);
      assert inside[0] in inside && Last(inside) in inside;
    }
  }

  /** Any closed window of length T holds at most 1 + floor(T / 2) push starts of one corner. */
  lemma GrantsInWindow(cfg: Config, actions: seq<Action>, start: real, c: CornerId, low: real, length: real)
    requires cfg.Valid() && Forward(actions, start) && length >= 0.0
    ensures var starts := PushStarts(Run(cfg, actions).sh.log, c);
            && Spaced(starts, 2.0)
            && |InWindow(starts, low, low + length)| <= 1 + (length / 2.0).Floor
  {
    RunPushSpaced(cfg, actions, start, c);
    SpacedCount(PushStarts(Run(cfg, actions).sh.log, c), low, length);
  }
}
