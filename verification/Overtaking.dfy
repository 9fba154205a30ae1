/** Bounded overtaking: a corner that waits for its neighbour gets its turn before the
    neighbour is served again. */
module Overtaking {
  import opened Basics
  import opened TimerPool
  import opened Collision
  import opened Plant
  import opened PlantInvariant
  import opened Timing
  import C = Corners
  import S = Stations
  import CI = CornerInvariant

  const RETRY_SLACK := 1.8

  /** A retry timer started at its attempt plus 0.2 s; firing within the slack means that
      two attempts of one corner come less than 2.0 s apart. */
  ghost predicate Prompt(timers: Timers, c: CornerId, a: Action) {
    forall id :: id in timers.live && timers.live[id].callback == RetryPush(c)
                 ==> a.t1 < timers.live[id].due + RETRY_SLACK
  }

  ghost predicate RetriesDue(timers: Timers, now: real) {
    forall id :: id in timers.live && timers.live[id].callback.RetryPush?
                 ==> timers.live[id].due <= now + 0.2
  }

  lemma StepRetriesDue(cfg: Config, p: Plant, a: Action, now: real)
    requires RetriesDue(p.sh.timers, now) && now <= a.t2
    ensures RetriesDue(Step(cfg, p, a).sh.timers, a.t2)
  {
  }

  lemma {:induction false} RunRetriesDue(cfg: Config, actions: seq<Action>, start: real)
    requires Forward(actions, start)
    ensures RetriesDue(Run(cfg, actions).sh.timers, Clock(actions, start))
  {
    if actions != [] {
      ForwardFront(actions, start);
      RunRetriesDue(cfg, Front(actions), start);
      StepRetriesDue(cfg, Run(cfg, Front(actions)), Last(actions), Clock(Front(actions), start));
    }
  }

  /** Corner `c` is ready, past its own interval, and `b`, released at `r`, has not been granted since. */
  ghost predicate Waits(p: Plant, b: CornerId, c: CornerId, r: real) {
    && !p.sh.manager.occupied.At(b) && p.sh.manager.lastUsed.At(b) == r
    && p.corners.At(c).state == C.ReadyToPush
    && r - p.sh.manager.lastUsed.At(c) >= 2.0
    && exists id: nat :: RetryBy(p.sh.timers, id, c, r)
  }

  predicate RetryBy(timers: Timers, id: nat, c: CornerId, r: real) {
    timers.Runs(id, RetryPush(c)) && timers.live[id].due <= r + 0.2
  }

  /** The neighbours of `c` other than `b` are free. */
  ghost predicate OthersFree(m: Manager, b: CornerId, c: CornerId) {
    forall e: CornerId :: Adjacent(c, e) && e != b ==> !m.occupied.At(e)
  }

  /** Corner `c` and its retry timer `id` are as they were. */
  ghost predicate Still(p: Plant, p': Plant, c: CornerId, id: nat) {
    && p'.corners.At(c) == p.corners.At(c)
    && id in p.sh.timers.live && id in p'.sh.timers.live
    && p'.sh.timers.live[id] == p.sh.timers.live[id]
  }

  lemma StillAfterDeliver(cfg: Config, p: Plant, d: Delivery, t1: real, t2: real, c: CornerId, id: nat)
    requires Ok(cfg, p) && p.corners.At(c).state == C.ReadyToPush && p.sh.timers.Runs(id, RetryPush(c))
    ensures Still(p, DeliverStep(cfg, p, d, t1, t2), c, id)
  {
    assert CI.CornerOk(cfg, c, p.corners.At(c), p.sh);
    match d.event.place
    case AtStation(n) =>
      if 1 <= n <= 2 {
        StationReactSpares(cfg, n, StationAt(p, n), d, t1, t2, c);
      }
    case AtCorner(e) =>
      if 1 <= e <= 4 && e != c {
        assert CI.CornerOk(cfg, e, p.corners.At(e), p.sh);
        CI.ReactUntouched(cfg, e, CornerAt(p, e), d.event.barrier, t1, t2, c);
      }
    case _ =>
  }

  lemma OnlyTimerOfReady(cfg: Config, p: Plant, c: CornerId, id: nat, other: nat)
    requires Ok(cfg, p) && p.corners.At(c).state == C.ReadyToPush && p.sh.timers.Runs(id, RetryPush(c))
    requires other in p.sh.timers.live && other != id
    ensures !C.OfCorner(p.sh.timers.live[other].callback, c)
  {
    assert CI.CornerOk(cfg, c, p.corners.At(c), p.sh);
    assert p.sh.timers.Runs(other, p.sh.timers.live[other].callback);
  }

  lemma StillIfUntouched(p: Plant, p': Plant, c: CornerId, id: nat)
    requires p.sh.timers.Runs(id, RetryPush(c)) && CI.Untouched(c, p.sh, p'.sh)
    requires p'.corners.At(c) == p.corners.At(c)
    ensures Still(p, p', c, id)
  {
  }

  lemma FireLeavesOther(cfg: Config, p: Plant, id: nat, t1: real, t2: real, c: CornerId)
    requires id in p.sh.timers.live && !C.OfCorner(p.sh.timers.live[id].callback, c)
    ensures FireStep(cfg, p, id, t1, t2).corners.At(c) == p.corners.At(c)
  {
  }

  lemma StillAfterFire(cfg: Config, p: Plant, other: nat, t1: real, t2: real, c: CornerId, id: nat)
    requires Ok(cfg, p) && p.corners.At(c).state == C.ReadyToPush && p.sh.timers.Runs(id, RetryPush(c))
    requires other in p.sh.timers.live && other != id
    ensures Still(p, FireStep(cfg, p, other, t1, t2), c, id)
  {
    hide FireStep, CI.Untouched;
    assert CI.CornerOk(cfg, c, p.corners.At(c), p.sh);
    OnlyTimerOfReady(cfg, p, c, id, other);
    FireLeavesOther(cfg, p, other, t1, t2, c);
    FireUntouches(cfg, p, other, t1, t2, c);
    StillIfUntouched(p, FireStep(cfg, p, other, t1, t2), c, id);
  }

  lemma ReadyIsStill(cfg: Config, p: Plant, a: Action, c: CornerId, id: nat)
    requires Ok(cfg, p) && p.corners.At(c).state == C.ReadyToPush
    requires p.sh.timers.Runs(id, RetryPush(c)) && !(a.Fire? && a.id == id)
    ensures Still(p, Step(cfg, p, a), c, id)
  {
    match a
    case Deliver(d, t1, t2) => StillAfterDeliver(cfg, p, d, t1, t2, c, id);
    case Fire(other, t1, t2) =>
      if other in p.sh.timers.live {
        StillAfterFire(cfg, p, other, t1, t2, c, id);
      }
    case _ =>
  }

  lemma RetryIsGranted(cfg: Config, p: Plant, b: CornerId, c: CornerId, r: real, id: nat, t1: real, t2: real)
    requires Ok(cfg, p) && Waits(p, b, c, r) && Adjacent(b, c) && OthersFree(p.sh.manager, b, c)
    requires p.sh.timers.Runs(id, RetryPush(c)) && r <= t1
    ensures FireStep(cfg, p, id, t1, t2).sh.manager.occupied == p.sh.manager.occupied.With(c, true)
  {
    assert CI.CornerOk(cfg, c, p.corners.At(c), p.sh);
    FreeAroundMeansAdjacentFree(p.sh.manager, c);
    assert MayGrant(p.sh.manager, c, t1);
  }

  /** While `c` waits, a step either leaves it waiting or grants it, and never grants `b`. */
  lemma WaitStep(cfg: Config, p: Plant, a: Action, b: CornerId, c: CornerId, r: real)
    requires Ok(cfg, p) && Waits(p, b, c, r) && Adjacent(b, c)
    requires OthersFree(p.sh.manager, b, c) && Prompt(p.sh.timers, c, a) && r <= a.t1 <= a.t2
    ensures var p' := Step(cfg, p, a);
            Waits(p', b, c, r) || (p'.sh.manager.occupied.At(c) && !p'.sh.manager.occupied.At(b))
  {
    var p' := Step(cfg, p, a);
    var id: nat :| RetryBy(p.sh.timers, id, c, r);
    if a.Fire? && a.id == id {
      RetryIsGranted(cfg, p, b, c, r, id, a.t1, a.t2);
    } else {
      ReadyIsStill(cfg, p, a, c, id);
      StepEffect(cfg, p, a, b);
      StepEffect(cfg, p, a, c);
      assert CI.CornerOk(cfg, c, p.corners.At(c), p.sh);
      if Quiet(c, p.sh, p'.sh) {
        assert RetryBy(p'.sh.timers, id, c, r);
      }
    }
  }

  /** At some point of `mid` corner `c` is reserved and `b` has not been since `pre`. */
  ghost predicate ServedFirst(cfg: Config, pre: seq<Action>, mid: seq<Action>, b: CornerId, c: CornerId) {
    exists k: nat :: k <= |mid| && Run(cfg, pre + mid[..k]).sh.manager.occupied.At(c) && NotServed(cfg, pre, mid[..k], b)
  }

  ghost predicate NotServed(cfg: Config, pre: seq<Action>, mid: seq<Action>, b: CornerId) {
    forall j: nat :: j <= |mid| ==> !Run(cfg, pre + mid[..j]).sh.manager.occupied.At(b)
  }

  /** Until `c` is granted its other neighbour stays free; retries are always prompt. */
  ghost predicate FairSegment(cfg: Config, pre: seq<Action>, mid: seq<Action>, b: CornerId, c: CornerId) {
    forall k: nat :: k < |mid| ==>
      var p := Run(cfg, pre + mid[..k]);
      Prompt(p.sh.timers, c, mid[k]) && (!ServedFirst(cfg, pre, mid[..k], b, c) ==> OthersFree(p.sh.manager, b, c))
  }

  lemma ServedEarlier(cfg: Config, pre: seq<Action>, mid: seq<Action>, b: CornerId, c: CornerId)
    requires mid != [] && ServedFirst(cfg, pre, Front(mid), b, c)
    ensures ServedFirst(cfg, pre, mid, b, c)
  {
    var k: nat :| k <= |Front(mid)| && Run(cfg, pre + Front(mid)[..k]).sh.manager.occupied.At(c)
                  && NotServed(cfg, pre, Front(mid)[..k], b);
    assert mid[..k] == Front(mid)[..k];
  }

  lemma NotServedExtends(cfg: Config, pre: seq<Action>, mid: seq<Action>, b: CornerId)
    requires mid != [] && NotServed(cfg, pre, Front(mid), b)
    requires !Run(cfg, pre + mid).sh.manager.occupied.At(b)
    ensures NotServed(cfg, pre, mid, b)
  {
    forall j: nat | j <= |mid|
      ensures !Run(cfg, pre + mid[..j]).sh.manager.occupied.At(b)
    {
      if j < |mid| {
        assert mid[..j] == Front(mid)[..j];
      } else {
        assert mid[..j] == mid;
      }
    }
  }

  lemma FairFront(cfg: Config, pre: seq<Action>, mid: seq<Action>, b: CornerId, c: CornerId)
    requires mid != [] && FairSegment(cfg, pre, mid, b, c)
    ensures FairSegment(cfg, pre, Front(mid), b, c)
  {
    forall k: nat | k < |Front(mid)|
      ensures var p := Run(cfg, pre + Front(mid)[..k]);
              Prompt(p.sh.timers, c, Front(mid)[k])
              && (!ServedFirst(cfg, pre, Front(mid)[..k], b, c) ==> OthersFree(p.sh.manager, b, c))
    {
      assert mid[..k] == Front(mid)[..k] && mid[k] == Front(mid)[k];
    }
  }

  lemma NothingServedYet(cfg: Config, pre: seq<Action>, b: CornerId, c: CornerId, r: real)
    requires Waits(Run(cfg, pre), b, c, r)
    ensures NotServed(cfg, pre, [], b)
  {
    var none: seq<Action> := [];
    forall j: nat | j <= |none|
      ensures !Run(cfg, pre + none[..j]).sh.manager.occupied.At(b)
    {
      assert pre + none[..j] == pre;
    }
  }

  lemma FairLast(cfg: Config, pre: seq<Action>, mid: seq<Action>, b: CornerId, c: CornerId)
    requires mid != [] && FairSegment(cfg, pre, mid, b, c) && !ServedFirst(cfg, pre, Front(mid), b, c)
    ensures var p := Run(cfg, pre + Front(mid));
            Prompt(p.sh.timers, c, Last(mid)) && OthersFree(p.sh.manager, b, c)
  {
    var k := |Front(mid)|;
    assert mid[..k] == Front(mid) && mid[k] == Last(mid);
  }

  lemma ServedNow(cfg: Config, pre: seq<Action>, mid: seq<Action>, b: CornerId, c: CornerId)
    requires Run(cfg, pre + mid).sh.manager.occupied.At(c) && NotServed(cfg, pre, mid, b)
    ensures ServedFirst(cfg, pre, mid, b, c)
  {
    assert mid[..|mid|] == mid;
  }

  lemma WaitsOneMore(cfg: Config, pre: seq<Action>, mid: seq<Action>, b: CornerId, c: CornerId, r: real)
    requires cfg.Valid() && mid != [] && r <= Last(mid).t1 <= Last(mid).t2
    requires Adjacent(b, c) && FairSegment(cfg, pre, mid, b, c) && !ServedFirst(cfg, pre, Front(mid), b, c)
    requires Waits(Run(cfg, pre + Front(mid)), b, c, r) && NotServed(cfg, pre, Front(mid), b)
    ensures ServedFirst(cfg, pre, mid, b, c)
            || (Waits(Run(cfg, pre + mid), b, c, r) && NotServed(cfg, pre, mid, b))
  {
    hide Step, Ok, Waits, FairSegment, ServedFirst, NotServed, Prompt, OthersFree;
    var front, a := Front(mid), Last(mid);
    var p := Run(cfg, pre + front);
    RunOk(cfg, pre + front);
    FairLast(cfg, pre, mid, b, c);
    WaitStep(cfg, p, a, b, c, r);
    assert pre + mid == (pre + front) + [a];
    RunAppend(cfg, pre + front, a);
    WaitingIsFree(Run(cfg, pre + mid), b, c, r);
    NotServedExtends(cfg, pre, mid, b);
    if Run(cfg, pre + mid).sh.manager.occupied.At(c) {
      ServedNow(cfg, pre, mid, b, c);
    }
  }

  lemma WaitingIsFree(p: Plant, b: CornerId, c: CornerId, r: real)
    ensures Waits(p, b, c, r) ==> !p.sh.manager.occupied.At(b)
  {
  }

  lemma {:induction false} WaitsOrServed(cfg: Config, pre: seq<Action>, mid: seq<Action>, start: real,
                                         b: CornerId, c: CornerId, r: real)
    requires cfg.Valid() && Forward(pre + mid, start) && r <= Clock(pre, start)
    requires Adjacent(b, c) && Waits(Run(cfg, pre), b, c, r) && FairSegment(cfg, pre, mid, b, c)
    ensures ServedFirst(cfg, pre, mid, b, c)
            || (Waits(Run(cfg, pre + mid), b, c, r) && NotServed(cfg, pre, mid, b))
  {
    hide Step, Waits, Ok, ServedFirst, NotServed, FairSegment;
    if mid == [] {
      assert pre + mid == pre;
      NothingServedYet(cfg, pre, b, c, r);
    } else {
      var front, a := Front(mid), Last(mid);
      assert Front(pre + mid) == pre + front && Last(pre + mid) == a;
      ForwardFront(pre + mid, start);
      FairFront(cfg, pre, mid, b, c);
      WaitsOrServed(cfg, pre, front, start, b, c, r);
      if ServedFirst(cfg, pre, front, b, c) {
        ServedEarlier(cfg, pre, mid, b, c);
      } else {
        ClockGrows(pre, front, start);
        WaitsOneMore(cfg, pre, mid, b, c, r);
      }
    }
  }

  lemma ClockGrows(pre: seq<Action>, mid: seq<Action>, start: real)
    requires Forward(pre + mid, start)
    ensures Clock(pre, start) <= Clock(pre + mid, start)
  {
    if mid == [] {
      assert pre + mid == pre;
    } else if pre != [] {
      assert (pre + mid)[|pre| - 1] == Last(pre) && Last(pre + mid) == Last(mid);
    }
  }

  /** Corner `b` has just been released while its neighbour `c` is ready and past its own interval.
      If retries are prompt and the other neighbour of `c` stays free, then `b` is granted again
      only after `c` has been. */
  lemma BoundedOvertaking(cfg: Config, pre: seq<Action>, mid: seq<Action>, start: real, b: CornerId, c: CornerId)
    requires cfg.Valid() && Forward(pre + mid, start) && Adjacent(b, c)
    requires pre != [] && Run(cfg, Front(pre)).sh.manager.occupied.At(b)
    requires !Run(cfg, pre).sh.manager.occupied.At(b)
    requires Run(cfg, pre).corners.At(c).state == C.ReadyToPush
    requires Last(pre).t2 - Run(cfg, pre).sh.manager.lastUsed.At(c) >= 2.0
    requires FairSegment(cfg, pre, mid, b, c)
    ensures Run(cfg, pre + mid).sh.manager.occupied.At(b) ==> ServedFirst(cfg, pre, mid, b, c)
  {
    var p, r := Run(cfg, pre), Last(pre).t2;
    RunOk(cfg, Front(pre));
    RunOk(cfg, pre);
    StepEffect(cfg, Run(cfg, Front(pre)), Last(pre), b);
    ForwardPrefix(pre, mid, start);
    RunRetriesDue(cfg, pre, start);
    assert Waits(p, b, c, r) by {
      assert CI.CornerOk(cfg, c, p.corners.At(c), p.sh);
      var id: nat :| p.sh.timers.Runs(id, RetryPush(c));
      assert RetryBy(p.sh.timers, id, c, r);
    }
    WaitsOrServed(cfg, pre, mid, start, b, c, r);
  }

  lemma ForwardPrefix(pre: seq<Action>, mid: seq<Action>, start: real)
    requires Forward(pre + mid, start)
    ensures Forward(pre, start)
  {
    forall i | 0 <= i < |pre|
      ensures start <= pre[i].t1 <= pre[i].t2
    {
      assert (pre + mid)[i] == pre[i];
    }
    forall i, j | 0 <= i < j < |pre|
      ensures pre[i].t2 <= pre[j].t1
    {
      assert (pre + mid)[i] == pre[i] && (pre + mid)[j] == pre[j];
    }
  }
}
