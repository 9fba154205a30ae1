/** The pool of running threading.Timer objects. Every timer has its own identity,
    so starting a second one never replaces the first. */
module TimerPool {
  import opened Basics

  datatype Callback =
    | ApproachDone(c: CornerId)
    | RetryPush(c: CornerId)
    | HandshakeLapsed(c: CornerId)
    | ProcessDone(n: StationId)
    | ExitDone(n: StationId, stamp: real)

  datatype Pending = Pending(callback: Callback, due: real)

  datatype Timers = Timers(live: map<nat, Pending>, next: nat) {
    function Start(callback: Callback, due: real): Timers {
      Timers(live[next := Pending(callback, due)], next + 1)
    }

    function Cancel(id: nat): Timers {
      this.(live := live - {id})
    }

    predicate Runs(id: nat, callback: Callback) {
      id in live && live[id].callback == callback
    }

    /** Identities are never reused. */
    ghost predicate Fresh() {
      forall id :: id in live ==> id < next
    }
  }

  const NO_TIMERS := Timers(map[], 0)

  class TimerService {
    var live: map<nat, Pending>
    var next: nat

    ghost function View(): Timers
      reads this
    {
      Timers(live, next)
    }

    constructor ()
      ensures View() == NO_TIMERS
    {
      live, next := map[], 0;
    }

    method Start(callback: Callback, due: real) returns (id: nat)
      modifies this
      ensures id == old(View()).next && View() == old(View()).Start(callback, due)
    {
      id := next;
      live, next := live[id := Pending(callback, due)], next + 1;
    }

    method Cancel(id: nat)
      modifies this
      ensures View() == old(View()).Cancel(id)
    {
      live := live - {id};
    }
  }
}
