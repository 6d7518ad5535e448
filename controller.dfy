/**
 * The main loop's mutable state as an object: the two global flags shared
 * between the button callback and the loop, and the three output pins the
 * loop drives. `Press` is the button callback; `Tick` is one pass of the
 * loop body from the mode branch to the sleep decision.
 */
module Controller {
  import opened Mode
  import opened Scheduler

  class MainTask {
    var doExecuteMainTask: bool
    var doResetAllOnce: bool
    var led1: Bit
    var enableMotors: Bit
    var userLed: Bit

    /** The object's state as a value of the mode state machine. */
    function Current(): Snapshot
      reads this
    {
      Snapshot(doExecuteMainTask, doResetAllOnce, led1, enableMotors, userLed)
    }

    /** Start-up: both flags false, each pin at the level it already holds. */
    constructor (led1Level: Bit, enableLevel: Bit, userLedLevel: Bit)
      ensures Current() == Initial(led1Level, enableLevel, userLedLevel)
      ensures Consistent(Current())
    {
      doExecuteMainTask := false;
      doResetAllOnce := false;
      led1 := led1Level;
      enableMotors := enableLevel;
      userLed := userLedLevel;
    }

    /** The user button callback, run as one atomic event between ticks. */
    method Press()
      modifies this
      ensures Current() == PressStep(old(Current()))
      ensures doExecuteMainTask == !old(doExecuteMainTask)
      ensures doExecuteMainTask ==> doResetAllOnce
      ensures !doExecuteMainTask ==> doResetAllOnce == old(doResetAllOnce)
      ensures led1 == old(led1) && enableMotors == old(enableMotors) && userLed == old(userLed)
      ensures old(Consistent(Current())) ==> Consistent(Current())
    {
      doExecuteMainTask := !doExecuteMainTask;
      if doExecuteMainTask {
        doResetAllOnce := true;
      }
    }

    /**
     * One pass of the loop body whose measured duration is `elapsedMs`: the
     * mode branch, the user LED toggle and the sleep decision.
     */
    method Tick(elapsedMs: int) returns (d: Decision)
      modifies this
      ensures Current() == TickStep(old(Current()))
      ensures d == SleepDecision(MAIN_TASK_PERIOD_MS, elapsedMs)
      ensures doExecuteMainTask == old(doExecuteMainTask)
      ensures userLed == Invert(old(userLed))
      ensures old(doExecuteMainTask) ==>
                led1 == 1 && enableMotors == 1 && doResetAllOnce == old(doResetAllOnce)
      ensures !old(doExecuteMainTask) && old(doResetAllOnce) ==>
                led1 == 0 && enableMotors == 0 && !doResetAllOnce
      ensures !old(doExecuteMainTask) && !old(doResetAllOnce) ==>
                led1 == old(led1) && enableMotors == old(enableMotors) && !doResetAllOnce
      ensures old(Consistent(Current())) ==> Consistent(Current())
    {
      if doExecuteMainTask {
        led1 := 1;
        enableMotors := 1;
      } else {
        if doResetAllOnce {
          doResetAllOnce := false;
          led1 := 0;
          enableMotors := 0;
        }
      }
      userLed := Invert(userLed);
      d := SleepDecision(MAIN_TASK_PERIOD_MS, elapsedMs);
    }
  }

  /**
   * A client: press, tick, press, tick from start-up. The second tick finds the
   * task stopped with the reset armed, switches the LED and the motor driver
   * off and disarms the reset; a third tick changes neither. The results are
   * the levels and flags after the third tick.
   */
  method PressTickPressTick(elapsedMs: int) returns (led1: Bit, enableMotors: Bit, running: bool, resetArmed: bool)
    ensures led1 == 0 && enableMotors == 0
    ensures !running && !resetArmed
  {
    var m := new MainTask(0, 0, 0);
    m.Press();
    var d := m.Tick(elapsedMs);
    assert m.led1 == 1 && m.enableMotors == 1 && m.doResetAllOnce;
    m.Press();
    d := m.Tick(elapsedMs);
    assert m.led1 == 0 && m.enableMotors == 0 && !m.doResetAllOnce;
    d := m.Tick(elapsedMs);
    led1, enableMotors, running, resetArmed := m.led1, m.enableMotors, m.doExecuteMainTask, m.doResetAllOnce;
  }
}
