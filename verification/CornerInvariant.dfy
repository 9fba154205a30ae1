/** What every step of the plant keeps about each corner: reservation, motors, timers, flag and log. */
module CornerInvariant {
  import opened Basics
  import opened TimerPool
  import opened Collision
  import opened SharedState
  import opened History
  import opened Corners

  /** The states in which a corner holds its reservation. */
  predicate Holding(state: CornerState) {
    state in {Extending, Pushing, WaitingForConfirmation, Retracting}
  }

  ghost predicate Reservation(c: CornerId, fsm: CornerFsm, sh: Shared) {
    && (sh.manager.occupied.At(c) <==> Holding(fsm.state))
    && (IsBusy(sh.log, CornerUnit(c)) <==> Holding(fsm.state))
    && fsm.state != Pushing
  }

  function PusherSpeed(cfg: Config, state: CornerState): real {
    if state == Extending then cfg.cornerSpeed else if state == Retracting then -cfg.cornerSpeed else 0.0
  }

  /** The pusher moves only while extending or retracting; the feeding conveyor runs only while idle. */
  ghost predicate Driving(cfg: Config, c: CornerId, fsm: CornerFsm, sh: Shared) {
    && sh.throttle[PusherMotor(c) - 1] == PusherSpeed(cfg, fsm.state)
    && (FeedMotor(c).Some? ==>
          sh.throttle[FeedMotor(c).value - 1] == if fsm.state == Idle then cfg.conveyorSpeed else 0.0)
  }

  ghost predicate Armed(timers: Timers, callback: Callback) {
    exists id: nat :: timers.Runs(id, callback)
  }

  predicate IsPushTimer(callback: Callback, c: CornerId) {
    callback == ApproachDone(c) || callback == RetryPush(c)
  }

  /** At most one approach-or-retry timer of this corner is live. */
  ghost predicate OnePushTimer(c: CornerId, timers: Timers) {
    forall i, j | i in timers.live && j in timers.live ::
      IsPushTimer(timers.live[i].callback, c) && IsPushTimer(timers.live[j].callback, c) ==> i == j
  }

  ghost predicate NoPushTimer(c: CornerId, timers: Timers) {
    forall i :: i in timers.live ==> !IsPushTimer(timers.live[i].callback, c)
  }

  ghost predicate PushTimer(c: CornerId, fsm: CornerFsm, timers: Timers) {
    && OnePushTimer(c, timers)
    && (Armed(timers, ApproachDone(c)) <==> fsm.state == FinalApproach)
    && (Armed(timers, RetryPush(c)) <==> fsm.state == ReadyToPush)
  }

  /** A handshake timer's identity stays its own: it is dead or still the handshake timer. */
  predicate OwnTimer(c: CornerId, id: nat, timers: Timers) {
    id < timers.next && (id in timers.live ==> timers.live[id].callback == HandshakeLapsed(c))
  }

  /** The flag is set exactly while the handshake timer runs, and only while waiting. */
  ghost predicate Handshake(c: CornerId, fsm: CornerFsm, sh: Shared) {
    && (forall i: nat :: sh.timers.Runs(i, HandshakeLapsed(c)) ==> fsm.handshakeTimer == Some(i))
    && (fsm.handshakeTimer.Some? ==> OwnTimer(c, fsm.handshakeTimer.value, sh.timers))
    && (sh.manager.waiting.At(c) <==> Armed(sh.timers, HandshakeLapsed(c)))
    && (sh.manager.waiting.At(c) ==> fsm.state == WaitingForConfirmation)
  }

  /** All but the approach-or-retry timer. */
  ghost predicate CornerBase(cfg: Config, c: CornerId, fsm: CornerFsm, sh: Shared) {
    Reservation(c, fsm, sh) && Driving(cfg, c, fsm, sh) && Handshake(c, fsm, sh) && sh.timers.Fresh()
  }

  ghost predicate CornerOk(cfg: Config, c: CornerId, fsm: CornerFsm, sh: Shared) {
    CornerBase(cfg, c, fsm, sh) && PushTimer(c, fsm, sh.timers)
  }

  // ------------------------------------------------------------- small facts

  lemma BusyAppend(log: seq<Entry>, e: Entry, u: Unit)
    ensures IsBusy(log + [e], u) == if Opens(e, u) then true else if Closes(e, u) then false else IsBusy(log, u)
  {
    AppendFront(log, e);
  }

  lemma StartArms(timers: Timers, callback: Callback, due: real, other: Callback)
    requires timers.Fresh()
    ensures timers.Start(callback, due).Fresh()
    ensures forall id: nat :: timers.Start(callback, due).Runs(id, other)
                         <==> timers.Runs(id, other) || (id == timers.next && other == callback)
    ensures Armed(timers.Start(callback, due), other) <==> Armed(timers, other) || other == callback
  {
    var after := timers.Start(callback, due);
    assert after.Runs(timers.next, callback);
    if Armed(timers, other) {
      var id: nat :| timers.Runs(id, other);
      assert after.Runs(id, other);
    }
  }

  lemma CancelDisarms(timers: Timers, id: nat, other: Callback)
    requires timers.Fresh()
    ensures timers.Cancel(id).Fresh()
    ensures forall i: nat :: timers.Cancel(id).Runs(i, other) <==> timers.Runs(i, other) && i != id
    ensures id in timers.live && timers.live[id].callback != other
            ==> (Armed(timers.Cancel(id), other) <==> Armed(timers, other))
  {
    if Armed(timers, other) {
      var i: nat :| timers.Runs(i, other);
      if i != id {
        assert timers.Cancel(id).Runs(i, other);
      }
    }
  }

  // ------------------------------------------------- each handler, for its own corner

  lemma IdleKeeps(cfg: Config, c: CornerId, v: CornerView, barrier: Barrier, t1: real)
    requires cfg.Valid() && CornerOk(cfg, c, v.fsm, v.sh) && v.fsm.state == Idle
    ensures var v' := HandleIdle(cfg, c, v, barrier, t1); CornerOk(cfg, c, v'.fsm, v'.sh)
  {
    var v' := HandleIdle(cfg, c, v, barrier, t1);
    if v' != v {
      var due := t1 + cfg.finalDelay;
      StartArms(v.sh.timers, ApproachDone(c), due, ApproachDone(c));
      StartArms(v.sh.timers, ApproachDone(c), due, RetryPush(c));
      StartArms(v.sh.timers, ApproachDone(c), due, HandshakeLapsed(c));
      NotArmed(c, v.sh.timers);
    }
  }

  lemma NotArmed(c: CornerId, timers: Timers)
    requires !Armed(timers, ApproachDone(c)) && !Armed(timers, RetryPush(c))
    ensures NoPushTimer(c, timers)
  {
    forall i | i in timers.live
      ensures !IsPushTimer(timers.live[i].callback, c)
    {
      assert timers.Runs(i, timers.live[i].callback);
    }
  }

  lemma TryPushKeeps(cfg: Config, c: CornerId, v: CornerView, t1: real, t2: real)
    requires cfg.Valid() && CornerBase(cfg, c, v.fsm, v.sh)
    requires v.fsm.state == ReadyToPush && NoPushTimer(c, v.sh.timers)
    ensures var v' := TryPush(cfg, c, v, t1, t2); CornerOk(cfg, c, v'.fsm, v'.sh)
  {
    if MayGrant(v.sh.manager, c, t1) {
      BusyAppend(v.sh.log, Entry(t2, CornerUnit(c), UNKNOWN_PART, PushStart), CornerUnit(c));
    } else {
      var due := t2 + RETRY_DELAY;
      StartArms(v.sh.timers, RetryPush(c), due, ApproachDone(c));
      StartArms(v.sh.timers, RetryPush(c), due, RetryPush(c));
      StartArms(v.sh.timers, RetryPush(c), due, HandshakeLapsed(c));
    }
  }

  lemma ExtendingKeeps(cfg: Config, c: CornerId, v: CornerView, barrier: Barrier, t1: real)
    requires cfg.Valid() && CornerOk(cfg, c, v.fsm, v.sh) && v.fsm.state == Extending
    ensures var v' := HandleExtending(cfg, c, v, barrier, t1); CornerOk(cfg, c, v'.fsm, v'.sh)
  {
    if barrier == CornerExt(c) {
      var due := t1 + cfg.handshakeTimeout;
      StartArms(v.sh.timers, HandshakeLapsed(c), due, ApproachDone(c));
      StartArms(v.sh.timers, HandshakeLapsed(c), due, RetryPush(c));
      StartArms(v.sh.timers, HandshakeLapsed(c), due, HandshakeLapsed(c));
    }
  }

  lemma WaitingKeeps(cfg: Config, c: CornerId, v: CornerView, barrier: Barrier)
    requires cfg.Valid() && CornerOk(cfg, c, v.fsm, v.sh) && v.fsm.state == WaitingForConfirmation
    ensures var v' := HandleWaiting(cfg, c, v, barrier); CornerOk(cfg, c, v'.fsm, v'.sh)
  {
    if barrier == Confirmation(c) && v.fsm.handshakeTimer.Some? {
      var id := v.fsm.handshakeTimer.value;
      CancelDisarms(v.sh.timers, id, ApproachDone(c));
      CancelDisarms(v.sh.timers, id, RetryPush(c));
      CancelDisarms(v.sh.timers, id, HandshakeLapsed(c));
    }
  }

  lemma RetractingKeeps(cfg: Config, c: CornerId, v: CornerView, barrier: Barrier, t1: real, t2: real)
    requires cfg.Valid() && CornerOk(cfg, c, v.fsm, v.sh) && v.fsm.state == Retracting
    ensures var v' := HandleRetracting(cfg, c, v, barrier, t1, t2); CornerOk(cfg, c, v'.fsm, v'.sh)
  {
    BusyAppend(v.sh.log, Entry(t1, CornerUnit(c), UNKNOWN_PART, PushComplete), CornerUnit(c));
  }

  lemma ReactKeeps(cfg: Config, c: CornerId, v: CornerView, barrier: Barrier, t1: real, t2: real)
    requires cfg.Valid() && CornerOk(cfg, c, v.fsm, v.sh)
    ensures var v' := React(cfg, c, v, barrier, t1, t2); CornerOk(cfg, c, v'.fsm, v'.sh)
  {
    match v.fsm.state
    case Idle => IdleKeeps(cfg, c, v, barrier, t1);
    case Extending => ExtendingKeeps(cfg, c, v, barrier, t1);
    case WaitingForConfirmation => WaitingKeeps(cfg, c, v, barrier);
    case Retracting => RetractingKeeps(cfg, c, v, barrier, t1, t2);
    case _ =>
  }

  // -------------------------------------------------------- timers firing

  lemma FiredPushTimer(cfg: Config, c: CornerId, fsm: CornerFsm, sh: Shared, id: nat)
    requires CornerOk(cfg, c, fsm, sh) && id in sh.timers.live
    requires IsPushTimer(sh.timers.live[id].callback, c)
    ensures CornerBase(cfg, c, fsm, sh.Fired(id)) && NoPushTimer(c, sh.Fired(id).timers)
    ensures fsm.state == if sh.timers.live[id].callback == ApproachDone(c) then FinalApproach else ReadyToPush
  {
    assert sh.timers.Runs(id, sh.timers.live[id].callback);
    CancelDisarms(sh.timers, id, HandshakeLapsed(c));
  }

  lemma FiredHandshake(cfg: Config, c: CornerId, fsm: CornerFsm, sh: Shared, id: nat)
    requires CornerOk(cfg, c, fsm, sh) && sh.timers.Runs(id, HandshakeLapsed(c))
    ensures fsm.state == WaitingForConfirmation
    ensures var v' := HandshakeTimeout(c, CornerView(fsm, sh.Fired(id))); CornerOk(cfg, c, v'.fsm, v'.sh)
  {
    CancelDisarms(sh.timers, id, ApproachDone(c));
    CancelDisarms(sh.timers, id, RetryPush(c));
    CancelDisarms(sh.timers, id, HandshakeLapsed(c));
  }

  /** Callbacks never look at the state, yet each fires only in the state it was meant for. */
  lemma AwakeKeeps(cfg: Config, c: CornerId, fsm: CornerFsm, sh: Shared, id: nat, t1: real, t2: real)
    requires cfg.Valid() && CornerOk(cfg, c, fsm, sh)
    requires id in sh.timers.live && OfCorner(sh.timers.live[id].callback, c)
    ensures var v' := Awake(cfg, c, CornerView(fsm, sh.Fired(id)), sh.timers.live[id].callback, t1, t2);
            CornerOk(cfg, c, v'.fsm, v'.sh)
  {
    var callback := sh.timers.live[id].callback;
    if callback == HandshakeLapsed(c) {
      FiredHandshake(cfg, c, fsm, sh, id);
    } else {
      FiredPushTimer(cfg, c, fsm, sh, id);
      TryPushKeeps(cfg, c, CornerView(fsm.(state := ReadyToPush), sh.Fired(id)), t1, t2);
    }
  }

  // ------------------------------------------------ what a step leaves to the others

  /** Nothing of corner `d` in the shared objects changes. */
  ghost predicate Untouched(d: CornerId, sh: Shared, sh': Shared) {
    && sh'.manager.occupied.At(d) == sh.manager.occupied.At(d)
    && sh'.manager.waiting.At(d) == sh.manager.waiting.At(d)
    && sh'.manager.lastUsed.At(d) == sh.manager.lastUsed.At(d)
    && sh'.throttle[PusherMotor(d) - 1] == sh.throttle[PusherMotor(d) - 1]
    && (FeedMotor(d).Some? ==> sh'.throttle[FeedMotor(d).value - 1] == sh.throttle[FeedMotor(d).value - 1])
    && (IsBusy(sh'.log, CornerUnit(d)) <==> IsBusy(sh.log, CornerUnit(d)))
    && TimersUntouched(d, sh.timers, sh'.timers)
  }

  ghost predicate TimersUntouched(d: CornerId, timers: Timers, timers': Timers) {
    && timers.next <= timers'.next && (timers.Fresh() ==> timers'.Fresh())
    && (forall id: nat :: id in timers'.live && (id < timers.next || OfCorner(timers'.live[id].callback, d))
                          ==> id in timers.live && timers'.live[id] == timers.live[id])
    && (forall id: nat :: id in timers.live && OfCorner(timers.live[id].callback, d)
                          ==> id in timers'.live && timers'.live[id] == timers.live[id])
  }

  lemma UntouchedArms(d: CornerId, timers: Timers, timers': Timers, callback: Callback)
    requires TimersUntouched(d, timers, timers') && OfCorner(callback, d)
    ensures Armed(timers', callback) <==> Armed(timers, callback)
  {
    if Armed(timers, callback) {
      var id: nat :| timers.Runs(id, callback);
      assert timers'.Runs(id, callback);
    }
    if Armed(timers', callback) {
      var id: nat :| timers'.Runs(id, callback);
      assert timers.Runs(id, callback);
    }
  }

  lemma UntouchedKeeps(cfg: Config, d: CornerId, fsm: CornerFsm, sh: Shared, sh': Shared)
    requires CornerOk(cfg, d, fsm, sh) && Untouched(d, sh, sh')
    ensures CornerOk(cfg, d, fsm, sh')
  {
    UntouchedArms(d, sh.timers, sh'.timers, ApproachDone(d));
    UntouchedArms(d, sh.timers, sh'.timers, RetryPush(d));
    UntouchedArms(d, sh.timers, sh'.timers, HandshakeLapsed(d));
  }

  lemma UntouchedTwice(d: CornerId, a: Shared, b: Shared, c: Shared)
    requires Untouched(d, a, b) && Untouched(d, b, c)
    ensures Untouched(d, a, c)
  {
  }

  lemma LogUntouched(log: seq<Entry>, e: Entry, d: CornerId)
    requires e.unit != CornerUnit(d)
    ensures IsBusy(log + [e], CornerUnit(d)) <==> IsBusy(log, CornerUnit(d))
  {
    BusyAppend(log, e, CornerUnit(d));
  }

  lemma IdleUntouched(cfg: Config, c: CornerId, v: CornerView, barrier: Barrier, t1: real, d: CornerId)
    requires v.sh.timers.Fresh() && c != d
    ensures Untouched(d, v.sh, HandleIdle(cfg, c, v, barrier, t1).sh)
  {
  }

  lemma ExtendingUntouched(cfg: Config, c: CornerId, v: CornerView, barrier: Barrier, t1: real, d: CornerId)
    requires v.sh.timers.Fresh() && c != d
    ensures Untouched(d, v.sh, HandleExtending(cfg, c, v, barrier, t1).sh)
  {
  }

  lemma WaitingUntouched(cfg: Config, c: CornerId, v: CornerView, barrier: Barrier, d: CornerId)
    requires Handshake(c, v.fsm, v.sh) && c != d
    ensures Untouched(d, v.sh, HandleWaiting(cfg, c, v, barrier).sh)
  {
  }

  lemma RetractingUntouched(cfg: Config, c: CornerId, v: CornerView, barrier: Barrier, t1: real, t2: real, d: CornerId)
    requires c != d
    ensures Untouched(d, v.sh, HandleRetracting(cfg, c, v, barrier, t1, t2).sh)
  {
    hide IsBusy;
    LogUntouched(v.sh.log, Entry(t1, CornerUnit(c), UNKNOWN_PART, PushComplete), d);
  }

  lemma TryPushUntouched(cfg: Config, c: CornerId, v: CornerView, t1: real, t2: real, d: CornerId)
    requires v.sh.timers.Fresh() && c != d
    ensures Untouched(d, v.sh, TryPush(cfg, c, v, t1, t2).sh)
  {
    hide IsBusy, MayGrant;
    LogUntouched(v.sh.log, Entry(t2, CornerUnit(c), UNKNOWN_PART, PushStart), d);
  }

  lemma ReactUntouched(cfg: Config, c: CornerId, v: CornerView, barrier: Barrier, t1: real, t2: real, d: CornerId)
    requires CornerOk(cfg, c, v.fsm, v.sh) && c != d
    ensures Untouched(d, v.sh, React(cfg, c, v, barrier, t1, t2).sh)
  {
    match v.fsm.state
    case Idle => IdleUntouched(cfg, c, v, barrier, t1, d);
    case Extending => ExtendingUntouched(cfg, c, v, barrier, t1, d);
    case WaitingForConfirmation => WaitingUntouched(cfg, c, v, barrier, d);
    case Retracting => RetractingUntouched(cfg, c, v, barrier, t1, t2, d);
    case _ =>
  }

  lemma AwakeUntouched(cfg: Config, c: CornerId, v: CornerView, callback: Callback, t1: real, t2: real, d: CornerId)
    requires OfCorner(callback, c) && c != d && v.sh.timers.Fresh()
    ensures Untouched(d, v.sh, Awake(cfg, c, v, callback, t1, t2).sh)
  {
    if callback != HandshakeLapsed(c) {
      TryPushUntouched(cfg, c, v.(fsm := v.fsm.(state := ReadyToPush)), t1, t2, d);
      TryPushUntouched(cfg, c, v, t1, t2, d);
    }
  }

  lemma FiredUntouched(sh: Shared, id: nat, d: CornerId)
    requires id in sh.timers.live && !OfCorner(sh.timers.live[id].callback, d)
    ensures Untouched(d, sh, sh.Fired(id))
  {
  }
}
