/** What each step of a run does to a station, in terms of barriers, motors, delays and log entries;
    and what the remaining steps do. */
module StationSteps {
  import opened Basics
  import opened TimerPool
  import opened SharedState
  import opened Plant
  import opened PlantInvariant
  import C = Corners
  import S = Stations
  import CI = CornerInvariant
  import SI = StationInvariant

  /** Motors 3 and 4 are the station belts; station 2 runs in reverse. */
  function Belt(p: Plant, n: StationId): real {
    p.sh.throttle[if n == 1 then 2 else 3]
  }

  function BeltSpeed(cfg: Config, n: StationId): real {
    if n == 1 then cfg.stationSpeed else -cfg.stationSpeed
  }

  /** The step delivers this barrier to station `n`. */
  predicate Gets(a: Action, n: StationId, barrier: Barrier) {
    a.Deliver? && a.delivery.event.place == AtStation(n) && a.delivery.event.barrier == barrier
  }

  predicate FiresProcess(p: Plant, a: Action, n: StationId) {
    a.Fire? && a.id in p.sh.timers.live && p.sh.timers.live[a.id].callback == ProcessDone(n)
  }

  predicate FiresExit(p: Plant, a: Action, n: StationId) {
    && a.Fire? && a.id in p.sh.timers.live
    && p.sh.timers.live[a.id].callback.ExitDone? && p.sh.timers.live[a.id].callback.n == n
  }

  predicate Stays(p: Plant, p': Plant, n: StationId) {
    p'.stations.At(n) == p.stations.At(n) && Belt(p', n) == Belt(p, n)
  }

  /** Without a part the entry is refused. */
  predicate Refuses(p: Plant, a: Action, p': Plant, n: StationId) {
    p' == p.(sh := p.sh.(log := p.sh.log + [Entry(a.t1, StationUnit(n), "UNKNOWN", ErrorNoPartId)]))
  }

  predicate VisitBegins(cfg: Config, p: Plant, a: Action, p': Plant, n: StationId) {
    && a.Deliver? && a.delivery.part.Some?
    && p'.stations.At(n).state == S.Entering
    && p'.stations.At(n).part == a.delivery.part && p'.stations.At(n).entryStamp == Some(a.delivery.event.stamp)
    && Belt(p', n) == BeltSpeed(cfg, n)
    && p'.sh.log == p.sh.log + [Entry(a.t1, StationUnit(n), a.delivery.part.value, Enter)]
    && p'.sh.timers == p.sh.timers
  }

  predicate ProcessingBegins(cfg: Config, p: Plant, a: Action, p': Plant, n: StationId) {
    && p.stations.At(n).part.Some? && p'.stations.At(n).part == p.stations.At(n).part
    && p'.stations.At(n).state == S.Processing && Belt(p', n) == 0.0
    && p'.sh.log == p.sh.log + [Entry(a.t1, StationUnit(n), p.stations.At(n).part.value, ProcessStart)]
    && p'.sh.timers
       == p.sh.timers.Start(ProcessDone(n), a.t2 + if n == 1 then cfg.processTime1 else cfg.processTime2)
  }

  predicate ProcessingEnds(cfg: Config, p: Plant, a: Action, p': Plant, n: StationId) {
    && a.Fire? && p.stations.At(n).part.Some? && p'.stations.At(n).part == p.stations.At(n).part
    && p'.stations.At(n).state == S.AdvancingToExit && Belt(p', n) == BeltSpeed(cfg, n)
    && p'.sh.log == p.sh.log + [Entry(a.t1, StationUnit(n), p.stations.At(n).part.value, ProcessEnd)]
    && p'.sh.timers == p.sh.timers.Cancel(a.id)
  }

  predicate ExitBegins(cfg: Config, p: Plant, a: Action, p': Plant, n: StationId) {
    && a.Deliver? && p'.stations.At(n).part == p.stations.At(n).part
    && p'.stations.At(n).state == S.Exiting && Belt(p', n) == BeltSpeed(cfg, n)
    && p'.sh.log == p.sh.log
    && p'.sh.timers == p.sh.timers.Start(ExitDone(n, a.delivery.event.stamp), a.t1 + 1.0)
  }

  /** The part is gone; its exit is logged if it has a name. */
  predicate VisitEnds(p: Plant, a: Action, p': Plant, n: StationId) {
    && a.Fire? && p.stations.At(n).part.Some?
    && p'.stations.At(n).state == S.Idle && p'.stations.At(n).part == None && p'.stations.At(n).entryStamp == None
    && Belt(p', n) == 0.0
    && p'.sh.log == p.sh.log + (if p.stations.At(n).part.value == "" then []
                                else [Entry(a.t1, StationUnit(n), p.stations.At(n).part.value, Exit)])
    && p'.sh.timers == p.sh.timers.Cancel(a.id)
  }

  /** Which steps move a station out of its state, and what they do. */
  predicate StationStep(cfg: Config, p: Plant, a: Action, p': Plant, n: StationId) {
    match p.stations.At(n).state
    case Idle =>
      if !Gets(a, n, StationEntry(n)) then Stays(p, p', n)
      else if a.delivery.part.None? then Refuses(p, a, p', n)
      else VisitBegins(cfg, p, a, p', n)
    case Entering =>
      if Gets(a, n, StationProcess(n)) then ProcessingBegins(cfg, p, a, p', n) else Stays(p, p', n)
    case Processing => if FiresProcess(p, a, n) then ProcessingEnds(cfg, p, a, p', n) else Stays(p, p', n)
    case AdvancingToExit =>
      if Gets(a, n, StationExit(n)) then ExitBegins(cfg, p, a, p', n) else Stays(p, p', n)
    case Exiting => if FiresExit(p, a, n) then VisitEnds(p, a, p', n) else Stays(p, p', n)
    case AdvancingToProcess => false
  }

  lemma StationGets(cfg: Config, p: Plant, a: Action, n: StationId)
    requires cfg.Valid() && SI.StationOk(cfg, n, p.stations.At(n), p.sh)
    requires a.Deliver? && a.delivery.event.place == AtStation(n)
    ensures StationStep(cfg, p, a, Step(cfg, p, a), n)
  {
    hide SI.LogOk, SI.StationTimer;
  }

  lemma ProcessFires(cfg: Config, p: Plant, a: Action, n: StationId)
    requires cfg.Valid() && p.stations.At(n).state == S.Processing && p.stations.At(n).part.Some?
    requires FiresProcess(p, a, n)
    ensures StationStep(cfg, p, a, Step(cfg, p, a), n)
  {
  }

  lemma ExitFires(cfg: Config, p: Plant, a: Action, n: StationId)
    requires cfg.Valid() && p.stations.At(n).state == S.Exiting && p.stations.At(n).part.Some?
    requires FiresExit(p, a, n)
    ensures StationStep(cfg, p, a, Step(cfg, p, a), n)
  {
  }

  lemma FiringFindsState(cfg: Config, p: Plant, id: nat, n: StationId)
    requires SI.StationOk(cfg, n, p.stations.At(n), p.sh)
    requires id in p.sh.timers.live && S.OfStation(p.sh.timers.live[id].callback, n)
    ensures p.stations.At(n).part.Some?
    ensures p.stations.At(n).state
            == if p.sh.timers.live[id].callback == ProcessDone(n) then S.Processing else S.Exiting
  {
    hide SI.LogOk;
    SI.FiredStationTimer(cfg, n, p.stations.At(n), p.sh, id);
  }

  lemma StationFires(cfg: Config, p: Plant, a: Action, n: StationId)
    requires cfg.Valid() && SI.StationOk(cfg, n, p.stations.At(n), p.sh)
    requires a.Fire? && a.id in p.sh.timers.live && S.OfStation(p.sh.timers.live[a.id].callback, n)
    ensures StationStep(cfg, p, a, Step(cfg, p, a), n)
  {
    hide SI.StationOk, StationStep, Step;
    FiringFindsState(cfg, p, a.id, n);
    if FiresProcess(p, a, n) {
      ProcessFires(cfg, p, a, n);
    } else {
      ExitFires(cfg, p, a, n);
    }
  }

  /** The step neither delivers to station `n` nor fires one of its timers. */
  predicate Elsewhere(p: Plant, a: Action, n: StationId) {
    match a
    case Deliver(d, _, _) => d.event.place != AtStation(n)
    case Fire(id, _, _) => id !in p.sh.timers.live || !S.OfStation(p.sh.timers.live[id].callback, n)
    case Report(_, _, _, _, _) => true
  }

  lemma OthersLeaveFsm(cfg: Config, p: Plant, a: Action, n: StationId)
    requires Elsewhere(p, a, n)
    ensures Step(cfg, p, a).stations.At(n) == p.stations.At(n)
  {
    hide C.React, C.Awake, S.React, S.Awake;
  }

  lemma OthersLeaveBelt(cfg: Config, p: Plant, a: Action, n: StationId)
    requires Elsewhere(p, a, n)
    ensures Belt(Step(cfg, p, a), n) == Belt(p, n)
  {
  }

  lemma ElsewhereStays(cfg: Config, p: Plant, a: Action, p': Plant, n: StationId)
    requires SI.StationOk(cfg, n, p.stations.At(n), p.sh) && Elsewhere(p, a, n)
    requires p'.stations.At(n) == p.stations.At(n) && Belt(p', n) == Belt(p, n)
    ensures StationStep(cfg, p, a, p', n)
  {
  }

  /** In every run every step does to a station exactly what its state calls for. */
  lemma StationStepsExactly(cfg: Config, actions: seq<Action>, a: Action, n: StationId)
    requires cfg.Valid()
    ensures StationStep(cfg, Run(cfg, actions), a, Run(cfg, actions + [a]), n)
  {
    hide Step, StationStep, SI.StationOk, Ok, Belt;
    var p := Run(cfg, actions);
    RunAppend(cfg, actions, a);
    RunOk(cfg, actions);
    StationHolds(cfg, p, n);
    if Elsewhere(p, a, n) {
      OthersLeaveFsm(cfg, p, a, n);
      OthersLeaveBelt(cfg, p, a, n);
      ElsewhereStays(cfg, p, a, Step(cfg, p, a), n);
    } else if a.Deliver? {
      StationGets(cfg, p, a, n);
    } else {
      StationFires(cfg, p, a, n);
    }
  }

  // ------------------------------------------------------------- the remaining steps

  /** No machine is found for the place of the delivery. */
  predicate Lost(place: Place) {
    match place
    case AtStation(n) => n != 1 && n != 2
    case AtCorner(c) => c < 1 || c > 4
    case AtConveyor(_) => true
    case Nowhere => true
  }

  /** Deliveries without a machine and dead timers change nothing; a report is logged and no more. */
  lemma OtherStepsExactly(cfg: Config, actions: seq<Action>, a: Action)
    ensures var p, p' := Run(cfg, actions), Run(cfg, actions + [a]);
            && (a.Deliver? && Lost(a.delivery.event.place) ==> p' == p)
            && (a.Fire? && a.id !in p.sh.timers.live ==> p' == p)
            && (a.Report? ==>
                  p' == if a.error.ErrorOrphan? || a.error.ErrorGhostNfc? then
                          p.(sh := p.sh.(log := p.sh.log + [Entry(a.t1, a.unit, a.part, a.error)]))
                        else p)
  {
    RunAppend(cfg, actions, a);
  }

  /** Where every run begins: all machines idle, nothing reserved or logged, M1 and M2 running. */
  lemma RunBegins(cfg: Config)
    requires cfg.Valid()
    ensures var p := Run(cfg, []);
            && (forall c: CornerId :: p.corners.At(c).state == C.Idle)
            && (forall n: StationId :: p.stations.At(n).state == S.Idle && p.stations.At(n).part == None)
            && (forall c: CornerId ::
                  !p.sh.manager.occupied.At(c) && !p.sh.manager.waiting.At(c) && p.sh.manager.lastUsed.At(c) == 0.0)
            && p.sh.throttle == [cfg.conveyorSpeed, cfg.conveyorSpeed, 0.0, 0.0, 0.0, 0.0, 0.0, 0.0]
            && p.sh.timers.live == map[] && p.sh.log == []
  {
  }
}
