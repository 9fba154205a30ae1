/** The eight motor throttles of motor_controller.py. */
module MotorControl {

  type Throttles = s: seq<real> | |s| == 8 witness [0.0, 0.0, 0.0, 0.0, 0.0, 0.0, 0.0, 0.0]

  function Clamp(speed: real): (r: real)
    ensures -1.0 <= r <= 1.0
    ensures -1.0 <= speed <= 1.0 ==> r == speed
    ensures speed > 1.0 ==> r == 1.0
    ensures speed < -1.0 ==> r == -1.0
  {
    var capped := if speed < 1.0 then speed else 1.0;
    if capped > -1.0 then capped else -1.0
  }

  /** The throttles after `set_speed`; an invalid motor number changes nothing. */
  function WithSpeed(th: Throttles, motor: int, speed: real): Throttles {
    if 1 <= motor <= 8 then th[motor - 1 := Clamp(speed)] else th
  }

  const STOPPED: Throttles := [0.0, 0.0, 0.0, 0.0, 0.0, 0.0, 0.0, 0.0]

  class MotorController {
    const throttle: array<real>

    ghost predicate Valid() {
      throttle.Length == 8
    }

    ghost function View(): Throttles
      requires Valid()
      reads throttle
    {
      throttle[..]
    }

    constructor ()
      ensures Valid() && fresh(throttle) && View() == STOPPED
    {
      throttle := new real[8];
      new;
      StopAll();
    }

    method SetSpeed(motor: int, speed: real)
      requires Valid()
      modifies throttle
      ensures View() == WithSpeed(old(View()), motor, speed)
    {
      if 1 <= motor <= 8 {
        throttle[motor - 1] := Clamp(speed);
      }
    }

    method Stop(motor: int)
      requires Valid()
      modifies throttle
      ensures View() == WithSpeed(old(View()), motor, 0.0)
    {
      SetSpeed(motor, 0.0);
    }

    method StopAll()
      requires Valid()
      modifies throttle
      ensures View() == STOPPED
    {
      for motor := 1 to 9
        invariant forall k :: 0 <= k < motor - 1 ==> throttle[k] == 0.0
      {
        ghost var before := View();
        Stop(motor);
        assert View() == WithSpeed(before, motor, 0.0);
        forall k | 0 <= k < motor
          ensures throttle[k] == 0.0
        {
          assert throttle[k] == View()[k];
          assert k < motor - 1 ==> View()[k] == before[k];
        }
      }
    }
  }
}
