/** How long things take: every timer is started with the delay of its callback and keeps it, so
    when no timer fires early a part is processed for at least the process time of its station. */
module Durations {
  import opened Basics
  import opened TimerPool
  import opened Collision
  import opened SharedState
  import opened Plant
  import opened PlantInvariant
  import opened Timing
  import C = Corners
  import S = Stations
  import CI = CornerInvariant
  import SI = StationInvariant

  /** The delay that belongs to a callback. */
  function DelayOf(cfg: Config, callback: Callback): real {
    match callback
    case ApproachDone(_) => cfg.finalDelay
    case RetryPush(_) => 0.2
    case HandshakeLapsed(_) => cfg.handshakeTimeout
    case ProcessDone(n) => cfg.ProcessTime(n)
    case ExitDone(_, _) => 1.0
  }

  /** A timer of `after` was running before, unchanged, or was started at one of the two clock readings with its delay. */
  ghost predicate TimerKept(cfg: Config, before: Timers, after: Timers, t1: real, t2: real) {
    forall id :: id in after.live ==>
      (id in before.live && after.live[id] == before.live[id])
      || (id !in before.live
          && after.live[id].due - DelayOf(cfg, after.live[id].callback) in {t1, t2})
  }

  /** No step changes a running timer, and every timer starts with the delay of its callback. */
  lemma TimersRunTheirDelay(cfg: Config, actions: seq<Action>, a: Action)
    requires cfg.Valid()
    ensures TimerKept(cfg, Run(cfg, actions).sh.timers, Run(cfg, actions + [a]).sh.timers, a.t1, a.t2)
  {
    RunAppend(cfg, actions, a);
    RunOk(cfg, actions);
    assert SI.StationOk(cfg, 1, Run(cfg, actions).stations.At(1), Run(cfg, actions).sh);
    StepKeepsTimers(cfg, Run(cfg, actions), a);
  }

  lemma StepKeepsTimers(cfg: Config, p: Plant, a: Action)
    requires p.sh.timers.Fresh()
    ensures TimerKept(cfg, p.sh.timers, Step(cfg, p, a).sh.timers, a.t1, a.t2)
  {
    match a
    case Deliver(d, t1, t2) =>
      match d.event.place {
        case AtStation(n) =>
          if 1 <= n <= 2 {
            StationReactKeepsTimers(cfg, n, StationAt(p, n), d, t1, t2);
          }
        case AtCorner(c) =>
          if 1 <= c <= 4 {
            CornerReactKeepsTimers(cfg, c, CornerAt(p, c), d.event.barrier, t1, t2);
          }
        case _ =>
      }
    case Fire(id, t1, t2) =>
      if id in p.sh.timers.live {
        WakeKeepsTimers(cfg, p.(sh := p.sh.Fired(id)), p.sh.timers.live[id].callback, t1, t2);
      }
    case Report(_, _, _, _, _) =>
  }

  lemma CornerReactKeepsTimers(cfg: Config, c: CornerId, v: C.CornerView, barrier: Barrier, t1: real, t2: real)
    requires v.sh.timers.Fresh()
    ensures TimerKept(cfg, v.sh.timers, C.React(cfg, c, v, barrier, t1, t2).sh.timers, t1, t2)
  {
  }

  lemma StationReactKeepsTimers(cfg: Config, n: StationId, v: S.StationView, d: Delivery, t1: real, t2: real)
    requires v.sh.timers.Fresh()
    ensures TimerKept(cfg, v.sh.timers, S.React(cfg, n, v, d, t1, t2).sh.timers, t1, t2)
  {
  }

  lemma WakeKeepsTimers(cfg: Config, p: Plant, callback: Callback, t1: real, t2: real)
    requires p.sh.timers.Fresh()
    ensures TimerKept(cfg, p.sh.timers, WakeStep(cfg, p, callback, t1, t2).sh.timers, t1, t2)
  {
  }

  // --------------------------------------------------------------- processing times

  /** No timer fires before it is due. */
  ghost predicate Punctual(cfg: Config, actions: seq<Action>) {
    forall k :: 0 <= k < |actions| && actions[k].Fire? ==>
      var live := Run(cfg, actions[..k]).sh.timers.live;
      actions[k].id in live ==> live[actions[k].id].due <= actions[k].t1
  }

  /** When station `n` last began to process. */
  function LastStart(log: seq<Entry>, n: StationId): Option<real> {
    if log == [] then None
    else if Last(log).unit == StationUnit(n) && Last(log).activity == ProcessStart then Some(Last(log).time)
    else LastStart(Front(log), n)
  }

  /** Every logged end of processing comes at least the process time after the start before it. */
  ghost predicate ProcessedLongEnough(cfg: Config, log: seq<Entry>, n: StationId) {
    forall k :: 0 <= k < |log| && log[k].unit == StationUnit(n) && log[k].activity == ProcessEnd ==>
      LongEnough(cfg, log[..k], n, log[k].time)
  }

  predicate LongEnough(cfg: Config, log: seq<Entry>, n: StationId, end: real) {
    LastStart(log, n).Some?
    && end - LastStart(log, n).value >= cfg.ProcessTime(n)
  }

  ghost predicate ProcessDue(cfg: Config, p: Plant, n: StationId) {
    forall id :: p.sh.timers.Runs(id, ProcessDone(n)) ==> LongEnough(cfg, p.sh.log, n, p.sh.timers.live[id].due)
  }

  /** Station `n` neither begins nor ends to process. */
  ghost predicate Continues(n: StationId, sh: Shared, sh': Shared) {
    && (sh'.log == sh.log
        || exists e: Entry :: sh'.log == sh.log + [e]
                              && !(e.unit == StationUnit(n) && e.activity in {ProcessStart, ProcessEnd}))
    && (forall id :: sh'.timers.Runs(id, ProcessDone(n)) ==>
          id in sh.timers.live && sh'.timers.live[id] == sh.timers.live[id])
  }

  ghost predicate Begins(cfg: Config, n: StationId, sh: Shared, sh': Shared, t1: real, t2: real) {
    && (exists part :: sh'.log == sh.log + [Entry(t1, StationUnit(n), part, ProcessStart)])
    && (forall id :: sh'.timers.Runs(id, ProcessDone(n)) ==>
          sh'.timers.live[id].due >= t2 + cfg.ProcessTime(n))
  }

  ghost predicate Ends(n: StationId, sh: Shared, sh': Shared, id: nat, t1: real) {
    && sh.timers.Runs(id, ProcessDone(n))
    && (exists part :: sh'.log == sh.log + [Entry(t1, StationUnit(n), part, ProcessEnd)])
    && !exists other :: sh'.timers.Runs(other, ProcessDone(n))
  }

  /** Seen from one station, a step begins or ends its processing, or neither. */
  lemma StepProcesses(cfg: Config, p: Plant, a: Action, n: StationId)
    requires Ok(cfg, p)
    ensures var sh' := Step(cfg, p, a).sh;
            Continues(n, p.sh, sh') || Begins(cfg, n, p.sh, sh', a.t1, a.t2)
            || (a.Fire? && Ends(n, p.sh, sh', a.id, a.t1))
  {
    assert SI.StationOk(cfg, n, p.stations.At(n), p.sh);
    match a
    case Deliver(d, t1, t2) => DeliverProcesses(cfg, p, d, t1, t2, n);
    case Fire(id, t1, t2) =>
      if id in p.sh.timers.live {
        FireProcesses(cfg, p, id, t1, t2, n);
      }
    case Report(_, _, _, _, _) =>
  }

  lemma DeliverProcesses(cfg: Config, p: Plant, d: Delivery, t1: real, t2: real, n: StationId)
    requires SI.StationOk(cfg, n, p.stations.At(n), p.sh)
    ensures var sh' := DeliverStep(cfg, p, d, t1, t2).sh;
            Continues(n, p.sh, sh') || Begins(cfg, n, p.sh, sh', t1, t2)
  {
    var fsm, sh' := p.stations.At(n), DeliverStep(cfg, p, d, t1, t2).sh;
    if d.event.place == AtStation(n) && fsm.state == S.Entering && d.event.barrier == StationProcess(n) {
      StationBegins(cfg, n, StationAt(p, n), d, t1, t2);
    } else {
      DeliverContinues(cfg, p, d, t1, t2, n);
    }
  }

  lemma StationBegins(cfg: Config, n: StationId, v: S.StationView, d: Delivery, t1: real, t2: real)
    requires SI.StationOk(cfg, n, v.fsm, v.sh) && v.fsm.state == S.Entering && d.event.barrier == StationProcess(n)
    ensures Begins(cfg, n, v.sh, S.React(cfg, n, v, d, t1, t2).sh, t1, t2)
  {
    var sh' := S.React(cfg, n, v, d, t1, t2).sh;
    assert sh'.log == v.sh.log + [Entry(t1, StationUnit(n), S.PartOf(v.fsm), ProcessStart)];
    forall id | sh'.timers.Runs(id, ProcessDone(n))
      ensures id == v.sh.timers.next
    {
      assert !v.sh.timers.Runs(id, ProcessDone(n));
    }
  }

  lemma DeliverContinues(cfg: Config, p: Plant, d: Delivery, t1: real, t2: real, n: StationId)
    requires p.sh.timers.Fresh()
    requires !(d.event.place == AtStation(n) && p.stations.At(n).state == S.Entering && d.event.barrier == StationProcess(n))
    ensures Continues(n, p.sh, DeliverStep(cfg, p, d, t1, t2).sh)
  {
    var sh' := DeliverStep(cfg, p, d, t1, t2).sh;
    if sh'.log != p.sh.log {
      assert sh'.log == p.sh.log + [Last(sh'.log)];
    }
  }

  lemma FireProcesses(cfg: Config, p: Plant, id: nat, t1: real, t2: real, n: StationId)
    requires SI.StationOk(cfg, n, p.stations.At(n), p.sh) && id in p.sh.timers.live
    ensures var sh' := FireStep(cfg, p, id, t1, t2).sh;
            Continues(n, p.sh, sh') || Ends(n, p.sh, sh', id, t1)
  {
    var callback := p.sh.timers.live[id].callback;
    if callback == ProcessDone(n) {
      StationEnds(cfg, n, p.stations.At(n), p.sh, id, t1);
    } else {
      WakeContinues(cfg, p.(sh := p.sh.Fired(id)), callback, t1, t2, n);
    }
  }

  lemma StationEnds(cfg: Config, n: StationId, fsm: S.StationFsm, sh: Shared, id: nat, t1: real)
    requires SI.StationOk(cfg, n, fsm, sh) && sh.timers.Runs(id, ProcessDone(n))
    ensures Ends(n, sh, S.ProcessingComplete(cfg, n, S.StationView(fsm, sh.Fired(id)), t1).sh, id, t1)
  {
    var sh' := S.ProcessingComplete(cfg, n, S.StationView(fsm, sh.Fired(id)), t1).sh;
    assert sh'.log == sh.log + [Entry(t1, StationUnit(n), S.PartOf(fsm), ProcessEnd)];
  }

  lemma WakeContinues(cfg: Config, p: Plant, callback: Callback, t1: real, t2: real, n: StationId)
    requires p.sh.timers.Fresh() && callback != ProcessDone(n)
    ensures Continues(n, p.sh, WakeStep(cfg, p, callback, t1, t2).sh)
  {
    var sh' := WakeStep(cfg, p, callback, t1, t2).sh;
    if sh'.log != p.sh.log {
      assert sh'.log == p.sh.log + [Last(sh'.log)];
    }
  }

  lemma LastStartAppend(log: seq<Entry>, e: Entry, n: StationId)
    ensures LastStart(log + [e], n)
            == if e.unit == StationUnit(n) && e.activity == ProcessStart then Some(e.time) else LastStart(log, n)
  {
    AppendFront(log, e);
  }

  lemma LongEnoughAppend(cfg: Config, log: seq<Entry>, e: Entry, n: StationId)
    requires ProcessedLongEnough(cfg, log, n)
    requires e.unit == StationUnit(n) && e.activity == ProcessEnd ==> LongEnough(cfg, log, n, e.time)
    ensures ProcessedLongEnough(cfg, log + [e], n)
  {
    var longer := log + [e];
    forall k | 0 <= k < |longer| && longer[k].unit == StationUnit(n) && longer[k].activity == ProcessEnd
      ensures LongEnough(cfg, longer[..k], n, longer[k].time)
    {
      assert longer[..k] == log[..k];
      assert log[..|log|] == log;
    }
  }

  lemma StepTakesItsTime(cfg: Config, p: Plant, a: Action, n: StationId)
    requires Ok(cfg, p) && a.t1 <= a.t2
    requires a.Fire? && a.id in p.sh.timers.live ==> p.sh.timers.live[a.id].due <= a.t1
    requires ProcessedLongEnough(cfg, p.sh.log, n) && ProcessDue(cfg, p, n)
    ensures var p' := Step(cfg, p, a);
            ProcessedLongEnough(cfg, p'.sh.log, n) && ProcessDue(cfg, p', n)
  {
    hide Step, LastStart, ProcessedLongEnough, Ok;
    var p' := Step(cfg, p, a);
    StepProcesses(cfg, p, a, n);
    if p'.sh.log != p.sh.log {
      var e := Last(p'.sh.log);
      assert p'.sh.log == p.sh.log + [e];
      LastStartAppend(p.sh.log, e, n);
      if a.Fire? && Ends(n, p.sh, p'.sh, a.id, a.t1) {
        assert LongEnough(cfg, p.sh.log, n, p.sh.timers.live[a.id].due);
      }
      LongEnoughAppend(cfg, p.sh.log, e, n);
    }
  }

  /** When no timer fires early, every processing that ends has taken the process time of its station. */
  lemma {:induction false} ProcessingTakesItsTime(cfg: Config, actions: seq<Action>, n: StationId, start: real)
    requires cfg.Valid() && Forward(actions, start) && Punctual(cfg, actions)
    ensures ProcessedLongEnough(cfg, Run(cfg, actions).sh.log, n) && ProcessDue(cfg, Run(cfg, actions), n)
  {
    if actions != [] {
      var front, a := Front(actions), Last(actions);
      assert actions[..|front|] == front;
      assert Punctual(cfg, front) by {
        PunctualFront(cfg, actions);
      }
      ForwardFront(actions, start);
      ProcessingTakesItsTime(cfg, front, n, start);
      RunOk(cfg, front);
      StepTakesItsTime(cfg, Run(cfg, front), a, n);
    }
  }

  lemma PunctualFront(cfg: Config, actions: seq<Action>)
    requires actions != [] && Punctual(cfg, actions)
    ensures Punctual(cfg, Front(actions))
  {
    var front := Front(actions);
    forall k | 0 <= k < |front| && front[k].Fire?
      ensures var live := Run(cfg, front[..k]).sh.timers.live;
              front[k].id in live ==> live[front[k].id].due <= front[k].t1
    {
      assert front[..k] == actions[..k] && front[k] == actions[k];
    }
  }

  // --------------------------------------------- approaches, handshakes and exits

  /** The same callback, whatever stamp an exit carries. */
  predicate SameKind(a: Callback, b: Callback) {
    a == b || (a.ExitDone? && b.ExitDone? && a.n == b.n)
  }

  ghost predicate NoneRuns(timers: Timers, kind: Callback) {
    forall id :: id in timers.live ==> !SameKind(timers.live[id].callback, kind)
  }

  /** Every running timer of a kind is due no earlier than its delay after `since`. */
  ghost predicate DueAfter(cfg: Config, timers: Timers, kind: Callback, since: real) {
    forall id :: id in timers.live && SameKind(timers.live[id].callback, kind)
                 ==> timers.live[id].due >= since + DelayOf(cfg, kind)
  }

  lemma StepKeepsDue(cfg: Config, before: Timers, after: Timers, kind: Callback, since: real, t1: real, t2: real)
    requires DueAfter(cfg, before, kind, since) && TimerKept(cfg, before, after, t1, t2) && since <= t1 <= t2
    ensures DueAfter(cfg, after, kind, since)
  {
  }

  /** Where no timer of a kind was running before a step, all of them are due their delay after it. */
  lemma {:induction false} StartedTimersAreDue(cfg: Config, actions: seq<Action>, start: real, i: nat, k: nat, kind: Callback)
    requires cfg.Valid() && Forward(actions, start) && i < |actions| && i <= k <= |actions|
    requires NoneRuns(Run(cfg, actions[..i]).sh.timers, kind)
    ensures DueAfter(cfg, Run(cfg, actions[..k]).sh.timers, kind, actions[i].t1)
  {
    if i < k {
      var before, a := actions[..k - 1], actions[k - 1];
      StartedTimersAreDue(cfg, actions, start, i, k - 1, kind);
      TimersRunTheirDelay(cfg, before, a);
      assert actions[..k] == before + [a];
      assert i < k - 1 ==> actions[i].t1 <= actions[i].t2 <= actions[k - 1].t1;
      StepKeepsDue(cfg, Run(cfg, before).sh.timers, Run(cfg, actions[..k]).sh.timers, kind, actions[i].t1, a.t1, a.t2);
    }
  }

  /** A punctual timer fires no earlier than its delay after any step before which none of its kind ran. */
  lemma FiringTakesItsDelay(cfg: Config, actions: seq<Action>, start: real, i: nat, j: nat, kind: Callback)
    requires cfg.Valid() && Forward(actions, start) && Punctual(cfg, actions) && i < j < |actions|
    requires NoneRuns(Run(cfg, actions[..i]).sh.timers, kind)
    requires var live := Run(cfg, actions[..j]).sh.timers.live;
             actions[j].Fire? && actions[j].id in live && SameKind(live[actions[j].id].callback, kind)
    ensures actions[j].t1 >= actions[i].t1 + DelayOf(cfg, kind)
  {
    StartedTimersAreDue(cfg, actions, start, i, j, kind);
  }

  lemma NoneApproaches(cfg: Config, p: Plant, c: CornerId)
    requires Ok(cfg, p) && p.corners.At(c).state == C.Idle
    ensures NoneRuns(p.sh.timers, ApproachDone(c))
  {
    assert CI.CornerOk(cfg, c, p.corners.At(c), p.sh);
    CI.NotArmed(c, p.sh.timers);
  }

  /** Only the approach timer ends a final approach. */
  lemma ApproachEnds(cfg: Config, p: Plant, a: Action, c: CornerId)
    requires CI.CornerOk(cfg, c, p.corners.At(c), p.sh)
    requires p.corners.At(c).state == C.FinalApproach && Step(cfg, p, a).corners.At(c).state != C.FinalApproach
    ensures a.Fire? && a.id in p.sh.timers.live && p.sh.timers.live[a.id].callback == ApproachDone(c)
  {
    hide S.React, S.Awake, MayGrant;
    if a.Fire? && a.id in p.sh.timers.live {
      assert p.sh.timers.Runs(a.id, p.sh.timers.live[a.id].callback);
    }
  }

  /** When no timer fires early, a final approach takes at least its delay: the step that ends it
      comes that much after any step that found the corner idle. */
  lemma ApproachTakesItsTime(cfg: Config, actions: seq<Action>, start: real, i: nat, j: nat, c: CornerId)
    requires cfg.Valid() && Forward(actions, start) && Punctual(cfg, actions) && i < j < |actions|
    requires Run(cfg, actions[..i]).corners.At(c).state == C.Idle
    requires Run(cfg, actions[..j]).corners.At(c).state == C.FinalApproach
    requires Run(cfg, actions[..j + 1]).corners.At(c).state != C.FinalApproach
    ensures actions[j].t1 >= actions[i].t1 + cfg.finalDelay
  {
    hide Step, Ok, Run, SI.StationOk, CI.CornerOk, NoneRuns, Punctual, Forward;
    RunUpTo(cfg, actions, i);
    RunUpTo(cfg, actions, j);
    NoneApproaches(cfg, Run(cfg, actions[..i]), c);
    CornerHolds(cfg, Run(cfg, actions[..j]), c);
    ApproachEnds(cfg, Run(cfg, actions[..j]), actions[j], c);
    FiringTakesItsDelay(cfg, actions, start, i, j, ApproachDone(c));
  }

  lemma RunUpTo(cfg: Config, actions: seq<Action>, k: nat)
    requires cfg.Valid() && k < |actions|
    ensures Ok(cfg, Run(cfg, actions[..k]))
    ensures Run(cfg, actions[..k + 1]) == Step(cfg, Run(cfg, actions[..k]), actions[k])
  {
    RunOk(cfg, actions[..k]);
    assert actions[..k + 1] == actions[..k] + [actions[k]];
    RunAppend(cfg, actions[..k], actions[k]);
  }

  lemma NoneLapses(cfg: Config, p: Plant, c: CornerId)
    requires Ok(cfg, p) && p.corners.At(c).state == C.Extending
    ensures NoneRuns(p.sh.timers, HandshakeLapsed(c))
  {
    assert CI.CornerOk(cfg, c, p.corners.At(c), p.sh);
    forall id | id in p.sh.timers.live
      ensures !SameKind(p.sh.timers.live[id].callback, HandshakeLapsed(c))
    {
      assert !p.sh.timers.Runs(id, HandshakeLapsed(c));
    }
  }

  /** Only the handshake timer clears the flag of a corner that keeps waiting. */
  lemma HandshakeLapses(cfg: Config, p: Plant, a: Action, c: CornerId)
    requires p.corners.At(c).state == C.WaitingForConfirmation && p.sh.manager.waiting.At(c)
    ensures var p' := Step(cfg, p, a);
            !p'.sh.manager.waiting.At(c) && p'.corners.At(c).state == C.WaitingForConfirmation ==>
              a.Fire? && a.id in p.sh.timers.live && p.sh.timers.live[a.id].callback == HandshakeLapsed(c)
  {
    hide MayGrant;
  }

  lemma OnlyWaitingFlagged(cfg: Config, p: Plant, c: CornerId)
    requires Ok(cfg, p) && p.sh.manager.waiting.At(c)
    ensures p.corners.At(c).state == C.WaitingForConfirmation
  {
    assert CI.CornerOk(cfg, c, p.corners.At(c), p.sh);
  }

  /** A jam is reported no earlier than the handshake timeout after any step that found the pusher extending. */
  lemma HandshakeTakesItsTime(cfg: Config, actions: seq<Action>, start: real, i: nat, j: nat, c: CornerId)
    requires cfg.Valid() && Forward(actions, start) && Punctual(cfg, actions) && i < j < |actions|
    requires Run(cfg, actions[..i]).corners.At(c).state == C.Extending
    requires Run(cfg, actions[..j]).sh.manager.waiting.At(c) && !Run(cfg, actions[..j + 1]).sh.manager.waiting.At(c)
    requires Run(cfg, actions[..j + 1]).corners.At(c).state == C.WaitingForConfirmation
    ensures actions[j].t1 >= actions[i].t1 + cfg.handshakeTimeout
  {
    hide Step, Ok, Run, SI.StationOk, CI.CornerOk, NoneRuns, Punctual, Forward;
    RunUpTo(cfg, actions, i);
    RunUpTo(cfg, actions, j);
    NoneLapses(cfg, Run(cfg, actions[..i]), c);
    OnlyWaitingFlagged(cfg, Run(cfg, actions[..j]), c);
    HandshakeLapses(cfg, Run(cfg, actions[..j]), actions[j], c);
    FiringTakesItsDelay(cfg, actions, start, i, j, HandshakeLapsed(c));
  }

  lemma NoneExits(cfg: Config, p: Plant, n: StationId)
    requires SI.StationOk(cfg, n, p.stations.At(n), p.sh) && p.stations.At(n).state == S.AdvancingToExit
    ensures NoneRuns(p.sh.timers, ExitDone(n, 0.0))
  {
    hide SI.LogOk;
    forall id | id in p.sh.timers.live
      ensures !SameKind(p.sh.timers.live[id].callback, ExitDone(n, 0.0))
    {
      assert !SI.ExitRuns(n, p.sh.timers, id);
    }
  }

  /** Only the exit timer ends an exit. */
  lemma ExitEnds(cfg: Config, p: Plant, a: Action, n: StationId)
    requires SI.StationOk(cfg, n, p.stations.At(n), p.sh)
    requires p.stations.At(n).state == S.Exiting && Step(cfg, p, a).stations.At(n).state != S.Exiting
    ensures a.Fire? && a.id in p.sh.timers.live && SameKind(p.sh.timers.live[a.id].callback, ExitDone(n, 0.0))
  {
    hide C.React, C.Awake;
    if a.Fire? && a.id in p.sh.timers.live {
      assert p.sh.timers.Runs(a.id, p.sh.timers.live[a.id].callback);
    }
  }

  /** A part leaves at least a second after any step that found it advancing to the exit. */
  lemma ExitTakesItsTime(cfg: Config, actions: seq<Action>, start: real, i: nat, j: nat, n: StationId)
    requires cfg.Valid() && Forward(actions, start) && Punctual(cfg, actions) && i < j < |actions|
    requires Run(cfg, actions[..i]).stations.At(n).state == S.AdvancingToExit
    requires Run(cfg, actions[..j]).stations.At(n).state == S.Exiting
    requires Run(cfg, actions[..j + 1]).stations.At(n).state != S.Exiting
    ensures actions[j].t1 >= actions[i].t1 + 1.0
  {
    hide Step, Ok, Run, SI.StationOk, CI.CornerOk, NoneRuns, Punctual, Forward;
    RunUpTo(cfg, actions, i);
    RunUpTo(cfg, actions, j);
    StationHolds(cfg, Run(cfg, actions[..i]), n);
    NoneExits(cfg, Run(cfg, actions[..i]), n);
    StationHolds(cfg, Run(cfg, actions[..j]), n);
    ExitEnds(cfg, Run(cfg, actions[..j]), actions[j], n);
    FiringTakesItsDelay(cfg, actions, start, i, j, ExitDone(n, 0.0));
  }
}
