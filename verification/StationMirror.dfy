/** The logger mirrors the stations: its flags, keys, sums and counters are those of the
    state machines that feed it, as long as parts carry names. */
module StationMirror {
  import opened Basics
  import opened TimerPool
  import opened SharedState
  import opened Metrics
  import opened History
  import opened Plant
  import opened PlantInvariant
  import C = Corners
  import S = Stations
  import SI = StationInvariant

  /** What the reader threads guarantee: no event carries an empty part name. */
  ghost predicate NamedParts(actions: seq<Action>) {
    forall i :: 0 <= i < |actions| && actions[i].Deliver? ==> actions[i].delivery.part != Some("")
  }

  predicate IsEnter(e: Entry, n: StationId) {
    e.unit == StationUnit(n) && e.activity == Enter
  }

  predicate IsExit(e: Entry, n: StationId) {
    e.unit == StationUnit(n) && e.activity == Exit
  }

  // --------------------------------------------------- a step seen from one station

  /** The log grows by at most one entry, which is not an entry or exit of station `n`. */
  ghost predicate Elsewhere(n: StationId, log: seq<Entry>, log': seq<Entry>) {
    log' == log || (log' != [] && Front(log') == log && !IsEnter(Last(log'), n) && !IsExit(Last(log'), n))
  }

  /** No visit begins or ends. */
  ghost predicate SameVisit(n: StationId, fsm: S.StationFsm, fsm': S.StationFsm, log: seq<Entry>, log': seq<Entry>) {
    fsm'.part == fsm.part && Elsewhere(n, log, log')
  }

  ghost predicate Enters(n: StationId, fsm: S.StationFsm, fsm': S.StationFsm, log: seq<Entry>, log': seq<Entry>) {
    && fsm.part.None? && fsm'.part.Some?
    && log' != [] && Front(log') == log && IsEnter(Last(log'), n) && Last(log').part == fsm'.part.value
  }

  ghost predicate Leaves(n: StationId, fsm: S.StationFsm, fsm': S.StationFsm, log: seq<Entry>, log': seq<Entry>) {
    && fsm.part.Some? && fsm'.part.None?
    && log' != [] && Front(log') == log && IsExit(Last(log'), n) && Last(log').part == fsm.part.value
  }

  ghost predicate VisitStep(n: StationId, fsm: S.StationFsm, fsm': S.StationFsm, log: seq<Entry>, log': seq<Entry>) {
    SameVisit(n, fsm, fsm', log, log') || Enters(n, fsm, fsm', log, log') || Leaves(n, fsm, fsm', log, log')
  }

  lemma ReactVisits(cfg: Config, n: StationId, v: S.StationView, d: Delivery, t1: real, t2: real)
    requires SI.Occupied(v.fsm)
    ensures var v' := S.React(cfg, n, v, d, t1, t2); VisitStep(n, v.fsm, v'.fsm, v.sh.log, v'.sh.log)
  {
    match v.fsm.state
    case Idle =>
      AppendFront(v.sh.log, Entry(t1, StationUnit(n), UNKNOWN_PART, ErrorNoPartId));
      if d.part.Some? {
        AppendFront(v.sh.log, Entry(t1, StationUnit(n), d.part.value, Enter));
      }
    case Entering =>
      AppendFront(v.sh.log, Entry(t1, StationUnit(n), S.PartOf(v.fsm), ProcessStart));
    case _ =>
  }

  lemma AwakeVisits(cfg: Config, n: StationId, fsm: S.StationFsm, sh: Shared, id: nat, t1: real)
    requires SI.StationOk(cfg, n, fsm, sh)
    requires id in sh.timers.live && S.OfStation(sh.timers.live[id].callback, n)
    requires sh.timers.live[id].callback.ExitDone? ==> fsm.part != Some("")
    ensures var v' := S.Awake(cfg, n, S.StationView(fsm, sh.Fired(id)), sh.timers.live[id].callback, t1);
            VisitStep(n, fsm, v'.fsm, sh.log, v'.sh.log)
  {
    SI.FiredStationTimer(cfg, n, fsm, sh, id);
    AppendFront(sh.log, Entry(t1, StationUnit(n), S.PartOf(fsm), ProcessEnd));
    AppendFront(sh.log, Entry(t1, StationUnit(n), S.PartOf(fsm), Exit));
  }

  lemma DeliverElsewhere(cfg: Config, p: Plant, d: Delivery, t1: real, t2: real, n: StationId)
    requires d.event.place != AtStation(n)
    ensures var p' := DeliverStep(cfg, p, d, t1, t2);
            p'.stations.At(n) == p.stations.At(n) && Elsewhere(n, p.sh.log, p'.sh.log)
  {
  }

  lemma FireElsewhere(cfg: Config, p: Plant, id: nat, t1: real, t2: real, n: StationId)
    requires id in p.sh.timers.live && !S.OfStation(p.sh.timers.live[id].callback, n)
    ensures var p' := FireStep(cfg, p, id, t1, t2);
            p'.stations.At(n) == p.stations.At(n) && Elsewhere(n, p.sh.log, p'.sh.log)
  {
  }

  /** An exit timer fires while the part of its station has no name: the exit is not logged. */
  predicate NamelessExit(p: Plant, a: Action) {
    && a.Fire? && a.id in p.sh.timers.live && p.sh.timers.live[a.id].callback.ExitDone?
    && p.stations.At(p.sh.timers.live[a.id].callback.n).part == Some("")
  }

  lemma StationIsOk(cfg: Config, p: Plant, n: StationId)
    requires Ok(cfg, p)
    ensures SI.StationOk(cfg, n, p.stations.At(n), p.sh) && SI.Occupied(p.stations.At(n))
  {
  }

  lemma StepIsVisitStep(cfg: Config, p: Plant, a: Action, n: StationId)
    requires Ok(cfg, p) && !NamelessExit(p, a)
    ensures var p' := Step(cfg, p, a); VisitStep(n, p.stations.At(n), p'.stations.At(n), p.sh.log, p'.sh.log)
  {
    hide S.React, S.Awake, C.React, C.Awake, Ok, SI.StationOk;
    StationIsOk(cfg, p, n);
    match a
    case Deliver(d, t1, t2) =>
      if d.event.place == AtStation(n) {
        ReactVisits(cfg, n, StationAt(p, n), d, t1, t2);
      } else {
        DeliverElsewhere(cfg, p, d, t1, t2, n);
      }
    case Fire(id, t1, t2) =>
      if id in p.sh.timers.live {
        if S.OfStation(p.sh.timers.live[id].callback, n) {
          AwakeVisits(cfg, n, p.stations.At(n), p.sh, id, t1);
        } else {
          FireElsewhere(cfg, p, id, t1, t2, n);
        }
      }
    case Report(_, _, _, _, _) =>
  }

  // ----------------------------------------------------------------- one station

  ghost predicate Mirrors(start: real, n: StationId, fsm: S.StationFsm, log: seq<Entry>) {
    var m := Replay(start, log);
    && (m.stations.At(n).since.Some? <==> fsm.part.Some?)
    && (forall key: Visit :: key.station == n ==>
          (key in m.entryTimes <==> fsm.part == Some(key.part))
          && (key in m.entryTimes ==> m.stations.At(n).since == Some(m.entryTimes[key])))
    && m.stations.At(n).total == Sum(AllCycles(log, n))
    && Count(log, StationUnit(n), Enter) == Count(log, StationUnit(n), Exit) + if fsm.part.Some? then 1 else 0
  }

  lemma MirrorsSame(start: real, n: StationId, fsm: S.StationFsm, fsm': S.StationFsm, log: seq<Entry>, e: Entry)
    requires Mirrors(start, n, fsm, log) && fsm'.part == fsm.part
    requires !IsEnter(e, n) && !IsExit(e, n)
    ensures Mirrors(start, n, fsm', log + [e])
  {
    AppendFront(log, e);
  }

  lemma MirrorsEnter(start: real, n: StationId, fsm: S.StationFsm, fsm': S.StationFsm, log: seq<Entry>, e: Entry)
    requires Mirrors(start, n, fsm, log) && fsm.part.None?
    requires IsEnter(e, n) && fsm'.part == Some(e.part)
    ensures Mirrors(start, n, fsm', log + [e])
  {
    AppendFront(log, e);
  }

  lemma MirrorsLeave(start: real, n: StationId, fsm: S.StationFsm, fsm': S.StationFsm, log: seq<Entry>, e: Entry)
    requires Mirrors(start, n, fsm, log) && fsm'.part.None?
    requires IsExit(e, n) && fsm.part == Some(e.part)
    ensures Mirrors(start, n, fsm', log + [e])
  {
    AppendFront(log, e);
    var m, key := Replay(start, log), Visit(e.part, n);
    EntryTimesAreOpenVisits(start, log, key);
    SumAppend(AllCycles(log, n), e.time - m.entryTimes[key]);
  }

  lemma MirrorsStep(start: real, n: StationId, fsm: S.StationFsm, fsm': S.StationFsm, log: seq<Entry>, log': seq<Entry>)
    requires Mirrors(start, n, fsm, log) && VisitStep(n, fsm, fsm', log, log')
    ensures Mirrors(start, n, fsm', log')
  {
    if log' != log {
      var e := Last(log');
      assert log' == log + [e];
      if Enters(n, fsm, fsm', log, log') {
        MirrorsEnter(start, n, fsm, fsm', log, e);
      } else if Leaves(n, fsm, fsm', log, log') {
        MirrorsLeave(start, n, fsm, fsm', log, e);
      } else {
        MirrorsSame(start, n, fsm, fsm', log, e);
      }
    }
  }

  // --------------------------------------------------------------- work in progress

  lemma WipStepTallies(start: real, log: seq<Entry>, e: Entry)
    requires Replay(start, log).wip == Tally(log)
    requires IsExit(e, 2) ==> Tally(log) > 0
    ensures Replay(start, log + [e]).wip == Tally(log + [e])
  {
    AppendFront(log, e);
  }

  lemma TallyOpen(log: seq<Entry>)
    ensures Count(log, StationUnit(2), Enter) > Count(log, StationUnit(2), Exit) ==> Tally(log) > 0
  {
  }

  /** An exit of station 2 ends a visit that was counted in, so the clamp does not bind. */
  lemma WipFollows(start: real, fsm: S.StationFsm, fsm': S.StationFsm, log: seq<Entry>, log': seq<Entry>)
    requires Mirrors(start, 2, fsm, log) && VisitStep(2, fsm, fsm', log, log')
    requires Replay(start, log).wip == Tally(log)
    ensures Replay(start, log').wip == Tally(log')
  {
    hide Replay, Tally;
    if log' != log {
      assert log' == log + [Last(log')];
      TallyOpen(log);
      WipStepTallies(start, log, Last(log'));
    }
  }

  // ------------------------------------------------------------------- the whole run

  ghost predicate RunMirrors(start: real, p: Plant) {
    && (forall n: StationId :: Mirrors(start, n, p.stations.At(n), p.sh.log))
    && Replay(start, p.sh.log).wip == Tally(p.sh.log)
  }

  lemma StepMirrors(cfg: Config, start: real, p: Plant, a: Action)
    requires Ok(cfg, p) && RunMirrors(start, p) && !NamelessExit(p, a)
    ensures RunMirrors(start, Step(cfg, p, a))
  {
    hide Step, NamelessExit, VisitStep, Mirrors, Tally;
    var p' := Step(cfg, p, a);
    forall n: StationId
      ensures Mirrors(start, n, p'.stations.At(n), p'.sh.log)
    {
      StepIsVisitStep(cfg, p, a, n);
      MirrorsStep(start, n, p.stations.At(n), p'.stations.At(n), p.sh.log, p'.sh.log);
    }
    StepIsVisitStep(cfg, p, a, 2);
    WipFollows(start, p.stations.At(2), p'.stations.At(2), p.sh.log, p'.sh.log);
  }

  /** No exit timer of the run fires for a nameless part. */
  ghost predicate NoNamelessExit(cfg: Config, actions: seq<Action>) {
    forall k :: 0 <= k < |actions| ==> !NamelessExit(Run(cfg, actions[..k]), actions[k])
  }

  lemma NoNamelessExitFront(cfg: Config, actions: seq<Action>)
    requires actions != [] && NoNamelessExit(cfg, actions)
    ensures NoNamelessExit(cfg, Front(actions)) && !NamelessExit(Run(cfg, Front(actions)), Last(actions))
  {
    hide NamelessExit, Run;
    var front := Front(actions);
    forall k | 0 <= k < |front|
      ensures !NamelessExit(Run(cfg, front[..k]), front[k])
    {
      assert front[..k] == actions[..k] && front[k] == actions[k];
    }
    assert actions[..|front|] == front;
  }

  lemma {:induction false} RunIsMirrored(cfg: Config, actions: seq<Action>, start: real)
    requires cfg.Valid() && NoNamelessExit(cfg, actions)
    ensures RunMirrors(start, Run(cfg, actions))
  {
    if actions != [] {
      NoNamelessExitFront(cfg, actions);
      RunIsMirrored(cfg, Front(actions), start);
      RunOk(cfg, Front(actions));
      StepMirrors(cfg, start, Run(cfg, Front(actions)), Last(actions));
    }
  }

  function One(b: bool): int {
    if b then 1 else 0
  }

  /** The logger mirrors station `n`: it is logged busy exactly while it is not idle; its open visit
      is that of its current part; its accumulated busy time is the sum of all its cycle times; and
      every entered visit but the current one was counted. */
  ghost predicate LoggerMirrorsStation(start: real, p: Plant, n: StationId) {
    var m := Replay(start, p.sh.log);
    && (m.stations.At(n).since.Some? <==> p.stations.At(n).state != S.Idle)
    && (forall key: Visit :: key.station == n ==> (key in m.entryTimes <==> p.stations.At(n).part == Some(key.part)))
    && m.stations.At(n).total == Sum(AllCycles(p.sh.log, n))
    && Count(p.sh.log, StationUnit(n), Enter) == m.counts.At(n) + One(p.stations.At(n).state != S.Idle)
  }

  /** It mirrors both; and the clamp at zero never binds, so the work in progress is the entries at
      S1 plus one if S2 is busy. */
  ghost predicate LoggerMirrors(start: real, p: Plant) {
    && LoggerMirrorsStation(start, p, 1) && LoggerMirrorsStation(start, p, 2)
    && Replay(start, p.sh.log).wip == Count(p.sh.log, StationUnit(1), Enter) + One(p.stations.s2.state != S.Idle)
  }

  lemma MirroredStation(cfg: Config, p: Plant, start: real, n: StationId)
    requires Ok(cfg, p) && Mirrors(start, n, p.stations.At(n), p.sh.log)
    ensures LoggerMirrorsStation(start, p, n)
  {
    hide Replay, AllCycles, Sum, Count;
    assert SI.StationOk(cfg, n, p.stations.At(n), p.sh);
    CountsAreExits(start, p.sh.log, n);
  }

  lemma MirroredLogger(cfg: Config, p: Plant, start: real)
    requires Ok(cfg, p) && RunMirrors(start, p)
    ensures LoggerMirrors(start, p)
  {
    hide Replay, AllCycles, Sum, Count;
    MirroredStation(cfg, p, start, 1);
    MirroredStation(cfg, p, start, 2);
    assert Mirrors(start, 2, p.stations.At(2), p.sh.log);
    CountsAreExits(start, p.sh.log, 2);
  }

  lemma SilentExitBreaks(start: real, p: Plant, p': Plant, n: StationId)
    requires p'.sh.log == p.sh.log && p.stations.At(n).state != S.Idle && p'.stations.At(n).state == S.Idle
    ensures !(LoggerMirrorsStation(start, p, n) && LoggerMirrorsStation(start, p', n))
  {
  }

  lemma NamelessExitIsSilent(cfg: Config, p: Plant, a: Action)
    requires NamelessExit(p, a)
    ensures var n, p' := p.sh.timers.live[a.id].callback.n, Step(cfg, p, a);
            p'.sh.log == p.sh.log && p'.stations.At(n).state == S.Idle
  {
  }

  /** A nameless exit breaks the mirror at once: the station is idle, but still logged busy. */
  lemma NamelessExitBreaks(cfg: Config, p: Plant, a: Action, start: real)
    requires Ok(cfg, p) && LoggerMirrors(start, p) && NamelessExit(p, a)
    ensures !LoggerMirrors(start, Step(cfg, p, a))
  {
    hide Step, Ok, SI.StationOk, LoggerMirrorsStation;
    var n := p.sh.timers.live[a.id].callback.n;
    StationIsOk(cfg, p, n);
    NamelessExitIsSilent(cfg, p, a);
    SilentExitBreaks(start, p, Step(cfg, p, a), n);
  }

  /** All along a run the logger mirrors the stations if and only if no exit timer ever fires for
      a nameless part. */
  lemma LoggerMirrorsStations(cfg: Config, actions: seq<Action>, start: real)
    requires cfg.Valid()
    ensures (forall k :: 0 <= k <= |actions| ==> LoggerMirrors(start, Run(cfg, actions[..k])))
            <==> NoNamelessExit(cfg, actions)
  {
    hide LoggerMirrors, NamelessExit, Step, Run;
    if forall k :: 0 <= k <= |actions| ==> LoggerMirrors(start, Run(cfg, actions[..k])) {
      forall k | 0 <= k < |actions|
        ensures !NamelessExit(Run(cfg, actions[..k]), actions[k])
      {
        assert actions[..k + 1] == actions[..k] + [actions[k]];
        RunAppend(cfg, actions[..k], actions[k]);
        RunOk(cfg, actions[..k]);
        if NamelessExit(Run(cfg, actions[..k]), actions[k]) {
          NamelessExitBreaks(cfg, Run(cfg, actions[..k]), actions[k], start);
        }
      }
    }
    if NoNamelessExit(cfg, actions) {
      forall k | 0 <= k <= |actions|
        ensures LoggerMirrors(start, Run(cfg, actions[..k]))
      {
        NoNamelessExitPrefix(cfg, actions, k);
        RunMirrorsLogger(cfg, actions[..k], start);
      }
    }
  }

  lemma NoNamelessExitPrefix(cfg: Config, actions: seq<Action>, k: nat)
    requires k <= |actions| && NoNamelessExit(cfg, actions)
    ensures NoNamelessExit(cfg, actions[..k])
  {
    hide NamelessExit, Run;
    forall j | 0 <= j < k
      ensures !NamelessExit(Run(cfg, actions[..k][..j]), actions[..k][j])
    {
      assert actions[..k][..j] == actions[..j];
    }
  }

  lemma RunMirrorsLogger(cfg: Config, actions: seq<Action>, start: real)
    requires cfg.Valid() && NoNamelessExit(cfg, actions)
    ensures LoggerMirrors(start, Run(cfg, actions))
  {
    RunOk(cfg, actions);
    RunIsMirrored(cfg, actions, start);
    MirroredLogger(cfg, Run(cfg, actions), start);
  }

  lemma {:induction false} NamedRunHasNames(cfg: Config, actions: seq<Action>, n: StationId)
    requires NamedParts(actions)
    ensures Run(cfg, actions).stations.At(n).part != Some("")
  {
    if actions != [] {
      NamedRunHasNames(cfg, Front(actions), n);
    }
  }

  /** Where every delivered part has a name, no exit is nameless. */
  lemma NamedPartsExitNamed(cfg: Config, actions: seq<Action>)
    requires NamedParts(actions)
    ensures NoNamelessExit(cfg, actions)
  {
    forall k | 0 <= k < |actions|
      ensures !NamelessExit(Run(cfg, actions[..k]), actions[k])
    {
      NamedRunHasNames(cfg, actions[..k], 1);
      NamedRunHasNames(cfg, actions[..k], 2);
    }
  }

  function AtStation1(stamp: real, barrier: Barrier, part: Option<string>): Action {
    Deliver(Delivery(SensorEvent(stamp, barrier, AtStation(1)), part), stamp, stamp)
  }

  /** A whole visit of a part without a name. */
  function NamelessVisit(): seq<Action> {
    ([AtStation1(1.0, StationEntry(1), Some(""))] + [AtStation1(2.0, StationProcess(1), None)] + [Fire(0, 9.0, 9.0)])
    + [AtStation1(10.0, StationExit(1), None)] + [Fire(1, 12.0, 12.0)]
  }

  const NAMELESS_LOG: seq<Entry> := [] + [Entry(1.0, StationUnit(1), "", Enter)]
                                   + [Entry(2.0, StationUnit(1), "", ProcessStart)]

  ghost predicate ProcessesNameless(p: Plant) {
    && p.stations.s1.state == S.Processing && p.stations.s1.part == Some("")
    && p.sh.timers.Runs(0, ProcessDone(1)) && p.sh.timers.next == 1 && p.sh.log == NAMELESS_LOG
  }

  lemma NamelessBegins(cfg: Config)
    ensures ProcessesNameless(Step(cfg, Step(cfg, Start(cfg), AtStation1(1.0, StationEntry(1), Some(""))),
                                   AtStation1(2.0, StationProcess(1), None)))
  {
    var p := Step(cfg, Start(cfg), AtStation1(1.0, StationEntry(1), Some("")));
    assert p.stations.s1.state == S.Entering && p.sh.timers == NO_TIMERS && |p.sh.log| == 1;
  }

  lemma NamelessEnds(cfg: Config, p: Plant)
    requires ProcessesNameless(p)
    ensures var q := Step(cfg, Step(cfg, Step(cfg, p, Fire(0, 9.0, 9.0)), AtStation1(10.0, StationExit(1), None)),
                          Fire(1, 12.0, 12.0));
            q.stations.s1.state == S.Idle && q.sh.log == NAMELESS_LOG + [Entry(9.0, StationUnit(1), "", ProcessEnd)]
  {
    var p1 := Step(cfg, p, Fire(0, 9.0, 9.0));
    assert p1.stations.s1.state == S.AdvancingToExit && p1.sh.timers.next == 1;
  }

  /** Such a visit is never logged out: the station is idle again, the logger still counts it busy. */
  lemma NamelessPartBreaksMirror(cfg: Config)
    ensures var p := Run(cfg, NamelessVisit());
            p.stations.s1.state == S.Idle && Replay(0.0, p.sh.log).stations.s1.since == Some(1.0)
  {
    hide Step;
    var a0, a1 := AtStation1(1.0, StationEntry(1), Some("")), AtStation1(2.0, StationProcess(1), None);
    var a2, a3, a4 := Fire(0, 9.0, 9.0), AtStation1(10.0, StationExit(1), None), Fire(1, 12.0, 12.0);
    assert [] + [a0] == [a0];
    RunAppend(cfg, [], a0);
    RunAppend(cfg, [a0], a1);
    RunAppend(cfg, [a0] + [a1], a2);
    RunAppend(cfg, [a0] + [a1] + [a2], a3);
    RunAppend(cfg, [a0] + [a1] + [a2] + [a3], a4);
    NamelessBegins(cfg);
    NamelessEnds(cfg, Run(cfg, [a0] + [a1]));
    NamelessReplay();
  }

  lemma NamelessReplay()
    ensures Replay(0.0, NAMELESS_LOG + [Entry(9.0, StationUnit(1), "", ProcessEnd)]).stations.s1.since == Some(1.0)
  {
    var e0, e1 := Entry(1.0, StationUnit(1), "", Enter), Entry(2.0, StationUnit(1), "", ProcessStart);
    ReplayAppend(0.0, [], e0);
    ReplayAppend(0.0, [] + [e0], e1);
    ReplayAppend(0.0, NAMELESS_LOG, Entry(9.0, StationUnit(1), "", ProcessEnd));
  }
}
