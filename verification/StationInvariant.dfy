/** What every step of the plant keeps about each station: part, motor, timers and the shape of its log. */
module StationInvariant {
  import opened Basics
  import opened TimerPool
  import opened SharedState
  import opened Stations

  // --------------------------------------------------- the language of a station's log

  datatype Mark = Mark(activity: Activity, part: string)

  /** Reports of the event matcher carry a station's name too; they are not the station's own. */
  predicate Own(e: Entry, n: StationId) {
    e.unit == StationUnit(n) && !e.activity.ErrorOrphan? && e.activity != ErrorGhostNfc
  }

  /** What one station logged, in order. */
  function Marks(log: seq<Entry>, n: StationId): seq<Mark> {
    if log == [] then []
    else if Own(Last(log), n) then Marks(Front(log), n) + [Mark(Last(log).activity, Last(log).part)]
    else Marks(Front(log), n)
  }

  /** One visit. A part without a name is never logged out. */
  function Visit(p: string): seq<Mark> {
    [Mark(Enter, p), Mark(ProcessStart, p), Mark(ProcessEnd, p)] + if p != "" then [Mark(Exit, p)] else []
  }

  predicate EndsInVisit(ms: seq<Mark>, p: string) {
    |ms| >= |Visit(p)| && ms[|ms| - |Visit(p)|..] == Visit(p)
  }

  /** Whole visits, one after the other, with refused entries only between them. */
  predicate Visits(ms: seq<Mark>) {
    if ms == [] then true
    else if Last(ms) == Mark(ErrorNoPartId, UNKNOWN_PART) then Visits(Front(ms))
    else EndsInVisit(ms, Last(ms).part) && Visits(ms[..|ms| - |Visit(Last(ms).part)|])
  }

  /** Whole visits followed by the first `k` marks of a visit of `p`. */
  ghost predicate InVisit(ms: seq<Mark>, k: nat, p: string) {
    k <= 3 && |ms| >= k && ms[|ms| - k..] == Visit(p)[..k] && Visits(ms[..|ms| - k])
  }

  function Progress(state: StationState): nat {
    match state
    case Idle => 0
    case Entering => 1
    case AdvancingToProcess => 1
    case Processing => 2
    case _ => 3
  }

  lemma VisitBegins(ms: seq<Mark>, q: string, p: string)
    requires InVisit(ms, 0, q)
    ensures InVisit(ms + [Mark(Enter, p)], 1, p)
  {
    assert ms[..|ms|] == ms;
    assert (ms + [Mark(Enter, p)])[..|ms|] == ms;
  }

  lemma VisitRefused(ms: seq<Mark>, q: string)
    requires InVisit(ms, 0, q)
    ensures InVisit(ms + [Mark(ErrorNoPartId, UNKNOWN_PART)], 0, q)
  {
    var longer := ms + [Mark(ErrorNoPartId, UNKNOWN_PART)];
    assert ms[..|ms|] == ms;
    AppendFront(ms, Mark(ErrorNoPartId, UNKNOWN_PART));
    assert longer[..|longer|] == longer;
  }

  lemma VisitAdvances(ms: seq<Mark>, k: nat, p: string, mark: Mark)
    requires 1 <= k <= 2 && InVisit(ms, k, p) && mark == Visit(p)[k]
    ensures InVisit(ms + [mark], k + 1, p)
  {
    var longer := ms + [mark];
    assert longer[..|longer| - (k + 1)] == ms[..|ms| - k];
    assert longer[|longer| - (k + 1)..] == ms[|ms| - k..] + [mark];
  }

  lemma VisitEnds(ms: seq<Mark>, p: string, q: string)
    requires InVisit(ms, 3, p)
    ensures InVisit(if p != "" then ms + [Mark(Exit, p)] else ms, 0, q)
  {
    var whole := if p != "" then ms + [Mark(Exit, p)] else ms;
    var before := ms[..|ms| - 3];
    assert whole[|whole| - |Visit(p)|..] == Visit(p) by {
      assert ms[|ms| - 3..] == Visit(p)[..3];
      if p != "" {
        assert whole[|whole| - 4..] == ms[|ms| - 3..] + [Mark(Exit, p)];
        assert Visit(p) == Visit(p)[..3] + [Mark(Exit, p)];
      } else {
        assert Visit(p) == Visit(p)[..3];
      }
    }
    assert Last(whole) == Last(Visit(p));
    assert whole[..|whole| - |Visit(p)|] == before;
    assert whole[..|whole|] == whole;
  }

  // ------------------------------------------------------------------ the invariant

  predicate Moving(state: StationState) {
    state in {Entering, AdvancingToExit, Exiting}
  }

  ghost predicate Occupied(fsm: StationFsm) {
    && (fsm.part.Some? <==> fsm.state != Idle)
    && (fsm.entryStamp.Some? <==> fsm.state != Idle)
    && fsm.state != AdvancingToProcess
  }

  ghost predicate ProcessArmed(n: StationId, timers: Timers) {
    exists id: nat :: timers.Runs(id, ProcessDone(n))
  }

  predicate ExitRuns(n: StationId, timers: Timers, id: nat) {
    id in timers.live && timers.live[id].callback.ExitDone? && timers.live[id].callback.n == n
  }

  ghost predicate ExitArmed(n: StationId, timers: Timers) {
    exists id: nat :: ExitRuns(n, timers, id)
  }

  ghost predicate OneStationTimer(n: StationId, timers: Timers) {
    forall i, j | i in timers.live && j in timers.live ::
      OfStation(timers.live[i].callback, n) && OfStation(timers.live[j].callback, n) ==> i == j
  }

  ghost predicate NoStationTimer(n: StationId, timers: Timers) {
    forall i :: i in timers.live ==> !OfStation(timers.live[i].callback, n)
  }

  ghost predicate StationTimer(n: StationId, fsm: StationFsm, timers: Timers) {
    && OneStationTimer(n, timers)
    && (ProcessArmed(n, timers) <==> fsm.state == Processing)
    && (ExitArmed(n, timers) <==> fsm.state == Exiting)
  }

  /** The station's log stops as far into a visit as its state is. */
  ghost predicate LogOk(n: StationId, fsm: StationFsm, log: seq<Entry>) {
    InVisit(Marks(log, n), Progress(fsm.state), PartOf(fsm))
  }

  ghost predicate StationBase(cfg: Config, n: StationId, fsm: StationFsm, sh: Shared) {
    && Occupied(fsm)
    && sh.throttle[StationMotor(n) - 1] == (if Moving(fsm.state) then StationSpeed(cfg, n) else 0.0)
    && LogOk(n, fsm, sh.log)
    && sh.timers.Fresh()
  }

  ghost predicate StationOk(cfg: Config, n: StationId, fsm: StationFsm, sh: Shared) {
    StationBase(cfg, n, fsm, sh) && StationTimer(n, fsm, sh.timers)
  }

  lemma MarksAppend(log: seq<Entry>, e: Entry, n: StationId)
    ensures Marks(log + [e], n) == if Own(e, n) then Marks(log, n) + [Mark(e.activity, e.part)] else Marks(log, n)
  {
    AppendFront(log, e);
  }

  lemma StartsStationTimer(n: StationId, timers: Timers, callback: Callback, due: real)
    requires timers.Fresh() && NoStationTimer(n, timers) && OfStation(callback, n)
    ensures var after := timers.Start(callback, due);
            && after.Fresh() && OneStationTimer(n, after)
            && (ProcessArmed(n, after) <==> callback == ProcessDone(n))
            && (ExitArmed(n, after) <==> callback.ExitDone?)
  {
    var after := timers.Start(callback, due);
    assert after.Runs(timers.next, callback);
    assert callback.ExitDone? ==> ExitRuns(n, after, timers.next);
  }

  lemma NoneArmed(n: StationId, timers: Timers)
    requires !ProcessArmed(n, timers) && !ExitArmed(n, timers)
    ensures NoStationTimer(n, timers)
  {
    forall i | i in timers.live
      ensures !OfStation(timers.live[i].callback, n)
    {
      assert !timers.Runs(i, ProcessDone(n)) && !ExitRuns(n, timers, i);
    }
  }

  lemma LogUntouched(n: StationId, fsm: StationFsm, fsm': StationFsm, log: seq<Entry>, log': seq<Entry>)
    requires LogOk(n, fsm, log) && Marks(log', n) == Marks(log, n)
    requires Progress(fsm'.state) == Progress(fsm.state) && PartOf(fsm') == PartOf(fsm)
    ensures LogOk(n, fsm', log')
  {
  }

  lemma IdleKeeps(cfg: Config, n: StationId, v: StationView, d: Delivery, t1: real)
    requires cfg.Valid() && StationOk(cfg, n, v.fsm, v.sh) && v.fsm.state == Idle
    ensures var v' := HandleIdle(cfg, n, v, d, t1); StationOk(cfg, n, v'.fsm, v'.sh)
  {
    var ms, v' := Marks(v.sh.log, n), HandleIdle(cfg, n, v, d, t1);
    assert LogOk(n, v'.fsm, v'.sh.log) by {
      if v'.sh.log != v.sh.log {
        MarksAppend(v.sh.log, Last(v'.sh.log), n);
        if d.part.None? {
          VisitRefused(ms, PartOf(v.fsm));
        } else {
          VisitBegins(ms, PartOf(v.fsm), d.part.value);
        }
      }
    }
  }

  lemma EnteringKeeps(cfg: Config, n: StationId, v: StationView, barrier: Barrier, t1: real, t2: real)
    requires cfg.Valid() && StationOk(cfg, n, v.fsm, v.sh) && v.fsm.state == Entering
    ensures var v' := HandleEntering(cfg, n, v, barrier, t1, t2); StationOk(cfg, n, v'.fsm, v'.sh)
  {
    hide InVisit, Visits, Marks;
    var v' := HandleEntering(cfg, n, v, barrier, t1, t2);
    if barrier == StationProcess(n) {
      assert LogOk(n, v'.fsm, v'.sh.log) by {
        MarksAppend(v.sh.log, Entry(t1, StationUnit(n), PartOf(v.fsm), ProcessStart), n);
        VisitAdvances(Marks(v.sh.log, n), 1, PartOf(v.fsm), Mark(ProcessStart, PartOf(v.fsm)));
      }
      NoneArmed(n, v.sh.timers);
      StartsStationTimer(n, v.sh.timers, ProcessDone(n), t2 + cfg.ProcessTime(n));
    }
  }

  lemma AdvancingKeeps(cfg: Config, n: StationId, v: StationView, event: SensorEvent, t1: real)
    requires cfg.Valid() && StationOk(cfg, n, v.fsm, v.sh) && v.fsm.state == AdvancingToExit
    ensures var v' := HandleAdvancingToExit(cfg, n, v, event, t1); StationOk(cfg, n, v'.fsm, v'.sh)
  {
    hide InVisit, Visits, Marks;
    var v' := HandleAdvancingToExit(cfg, n, v, event, t1);
    if event.barrier == StationExit(n) {
      LogUntouched(n, v.fsm, v'.fsm, v.sh.log, v'.sh.log);
      NoneArmed(n, v.sh.timers);
      StartsStationTimer(n, v.sh.timers, ExitDone(n, event.stamp), t1 + EXIT_DELAY);
    }
  }

  lemma ReactKeeps(cfg: Config, n: StationId, v: StationView, d: Delivery, t1: real, t2: real)
    requires cfg.Valid() && StationOk(cfg, n, v.fsm, v.sh)
    ensures var v' := React(cfg, n, v, d, t1, t2); StationOk(cfg, n, v'.fsm, v'.sh)
  {
    match v.fsm.state
    case Idle => IdleKeeps(cfg, n, v, d, t1);
    case Entering => EnteringKeeps(cfg, n, v, d.event.barrier, t1, t2);
    case AdvancingToExit => AdvancingKeeps(cfg, n, v, d.event, t1);
    case _ =>
  }

  lemma FiredStationTimer(cfg: Config, n: StationId, fsm: StationFsm, sh: Shared, id: nat)
    requires StationOk(cfg, n, fsm, sh) && id in sh.timers.live && OfStation(sh.timers.live[id].callback, n)
    ensures StationBase(cfg, n, fsm, sh.Fired(id)) && NoStationTimer(n, sh.Fired(id).timers)
    ensures fsm.state == if sh.timers.live[id].callback == ProcessDone(n) then Processing else Exiting
  {
    assert sh.timers.Runs(id, ProcessDone(n)) || ExitRuns(n, sh.timers, id);
  }

  lemma NoStationTimerDisarms(n: StationId, timers: Timers)
    requires NoStationTimer(n, timers)
    ensures !ProcessArmed(n, timers) && !ExitArmed(n, timers) && OneStationTimer(n, timers)
  {
  }

  lemma LogProcessed(n: StationId, fsm: StationFsm, fsm': StationFsm, log: seq<Entry>, e: Entry)
    requires LogOk(n, fsm, log) && fsm.state == Processing
    requires fsm' == fsm.(state := AdvancingToExit)
    requires e.unit == StationUnit(n) && e.part == PartOf(fsm) && e.activity == ProcessEnd
    ensures LogOk(n, fsm', log + [e])
  {
    hide InVisit, Visits, Marks;
    MarksAppend(log, e, n);
    VisitAdvances(Marks(log, n), 2, PartOf(fsm), Mark(ProcessEnd, PartOf(fsm)));
  }

  lemma LogLeft(n: StationId, fsm: StationFsm, fsm': StationFsm, log: seq<Entry>, log': seq<Entry>, e: Entry)
    requires LogOk(n, fsm, log) && fsm.state == Exiting
    requires fsm'.state == Idle && fsm'.part == None
    requires e.unit == StationUnit(n) && e.part == PartOf(fsm) && e.activity == Exit
    requires log' == if PartOf(fsm) != "" then log + [e] else log
    ensures LogOk(n, fsm', log')
  {
    hide InVisit, Visits, Marks;
    MarksAppend(log, e, n);
    VisitEnds(Marks(log, n), PartOf(fsm), "");
  }

  lemma ProcessedKeeps(cfg: Config, n: StationId, v: StationView, t1: real)
    requires cfg.Valid() && StationBase(cfg, n, v.fsm, v.sh) && v.fsm.state == Processing
    requires NoStationTimer(n, v.sh.timers)
    ensures var v' := ProcessingComplete(cfg, n, v, t1); StationOk(cfg, n, v'.fsm, v'.sh)
  {
    hide InVisit, Visits, Marks, LogOk;
    var v' := ProcessingComplete(cfg, n, v, t1);
    NoStationTimerDisarms(n, v.sh.timers);
    LogProcessed(n, v.fsm, v'.fsm, v.sh.log, Entry(t1, StationUnit(n), PartOf(v.fsm), ProcessEnd));
  }

  lemma ExitedKeeps(cfg: Config, n: StationId, v: StationView, t1: real)
    requires cfg.Valid() && StationBase(cfg, n, v.fsm, v.sh) && v.fsm.state == Exiting
    requires NoStationTimer(n, v.sh.timers)
    ensures var v' := ExitComplete(n, v, t1); StationOk(cfg, n, v'.fsm, v'.sh)
  {
    hide InVisit, Visits, Marks, LogOk;
    var v' := ExitComplete(n, v, t1);
    NoStationTimerDisarms(n, v.sh.timers);
    LogLeft(n, v.fsm, v'.fsm, v.sh.log, v'.sh.log, Entry(t1, StationUnit(n), PartOf(v.fsm), Exit));
  }

  /** Station timers too fire only in the state they were meant for. */
  lemma AwakeKeeps(cfg: Config, n: StationId, fsm: StationFsm, sh: Shared, id: nat, t1: real)
    requires cfg.Valid() && StationOk(cfg, n, fsm, sh)
    requires id in sh.timers.live && OfStation(sh.timers.live[id].callback, n)
    ensures var v' := Awake(cfg, n, StationView(fsm, sh.Fired(id)), sh.timers.live[id].callback, t1);
            StationOk(cfg, n, v'.fsm, v'.sh)
  {
    FiredStationTimer(cfg, n, fsm, sh, id);
    if sh.timers.live[id].callback == ProcessDone(n) {
      ProcessedKeeps(cfg, n, StationView(fsm, sh.Fired(id)), t1);
    } else {
      ExitedKeeps(cfg, n, StationView(fsm, sh.Fired(id)), t1);
    }
  }

  // ------------------------------------------------ what a step leaves to the others

  ghost predicate Untouched(n: StationId, sh: Shared, sh': Shared) {
    && sh'.throttle[StationMotor(n) - 1] == sh.throttle[StationMotor(n) - 1]
    && Marks(sh'.log, n) == Marks(sh.log, n)
    && (sh.timers.Fresh() ==> sh'.timers.Fresh())
    && TimersUntouched(n, sh.timers, sh'.timers)
  }

  ghost predicate TimersUntouched(n: StationId, timers: Timers, timers': Timers) {
    && (forall id: nat :: id in timers'.live && OfStation(timers'.live[id].callback, n)
                          ==> id in timers.live && timers'.live[id] == timers.live[id])
    && (forall id: nat :: id in timers.live && OfStation(timers.live[id].callback, n)
                          ==> id in timers'.live && timers'.live[id] == timers.live[id])
  }

  lemma UntouchedArms(n: StationId, timers: Timers, timers': Timers)
    requires TimersUntouched(n, timers, timers')
    ensures ProcessArmed(n, timers') <==> ProcessArmed(n, timers)
    ensures ExitArmed(n, timers') <==> ExitArmed(n, timers)
  {
    forall id: nat
      ensures timers'.Runs(id, ProcessDone(n)) <==> timers.Runs(id, ProcessDone(n))
      ensures ExitRuns(n, timers', id) <==> ExitRuns(n, timers, id)
    {
    }
  }

  lemma UntouchedKeeps(cfg: Config, n: StationId, fsm: StationFsm, sh: Shared, sh': Shared)
    requires StationOk(cfg, n, fsm, sh) && Untouched(n, sh, sh')
    ensures StationOk(cfg, n, fsm, sh')
  {
    UntouchedArms(n, sh.timers, sh'.timers);
    LogUntouched(n, fsm, fsm, sh.log, sh'.log);
  }

  lemma ReactUntouched(cfg: Config, n: StationId, v: StationView, d: Delivery, t1: real, t2: real, m: StationId)
    requires v.sh.timers.Fresh() && n != m
    ensures Untouched(m, v.sh, React(cfg, n, v, d, t1, t2).sh)
  {
    hide Marks;
    match v.fsm.state
    case Idle =>
      MarksAppend(v.sh.log, Entry(t1, StationUnit(n), UNKNOWN_PART, ErrorNoPartId), m);
      if d.part.Some? {
        MarksAppend(v.sh.log, Entry(t1, StationUnit(n), d.part.value, Enter), m);
      }
    case Entering =>
      MarksAppend(v.sh.log, Entry(t1, StationUnit(n), PartOf(v.fsm), ProcessStart), m);
    case _ =>
  }

  lemma AwakeUntouched(cfg: Config, n: StationId, v: StationView, callback: Callback, t1: real, m: StationId)
    requires OfStation(callback, n) && n != m
    ensures Untouched(m, v.sh, Awake(cfg, n, v, callback, t1).sh)
  {
    MarksAppend(v.sh.log, Entry(t1, StationUnit(n), PartOf(v.fsm), ProcessEnd), m);
    MarksAppend(v.sh.log, Entry(t1, StationUnit(n), PartOf(v.fsm), Exit), m);
  }
}
