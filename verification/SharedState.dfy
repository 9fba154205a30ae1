/** The objects that all state machines share: reservations, timers, motors and the event log. */
module SharedState {
  import opened Basics
  import opened MotorControl
  import opened TimerPool
  import opened Collision

  datatype Shared = Shared(manager: Manager, timers: Timers, throttle: Throttles, log: seq<Entry>) {
    function Drive(motor: int, speed: real): Shared {
      this.(throttle := WithSpeed(throttle, motor, speed))
    }

    function Logged(unit: Unit, part: string, activity: Activity, now: real): Shared {
      this.(log := log + [Entry(now, unit, part, activity)])
    }

    /** A firing timer leaves the pool before its callback runs. */
    function Fired(id: nat): Shared {
      this.(timers := timers.Cancel(id))
    }

    function Timed(callback: Callback, due: real): Shared {
      this.(timers := timers.Start(callback, due))
    }
  }
}
