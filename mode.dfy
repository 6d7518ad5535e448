/**
 * The mode state machine of the main loop as values: a snapshot of the two
 * global flags and the three output pins, the effect of one button press and
 * of one loop tick on a snapshot, and what any interleaving of presses and
 * ticks does. Presses are atomic events that happen between ticks.
 */
module Mode {

  /** The level written to a digital output pin: 0 or 1. */
  newtype Bit = b: int | 0 <= b <= 1

  /** The level `!pin` writes back when a pin is toggled. */
  function Invert(b: Bit): (r: Bit)
    ensures r != b
  {
    1 - b
  }

  /**
   * The flags `do_execute_main_task` (the task runs) and `do_reset_all_once`
   * (the one-shot reset is pending), and the levels of the extra LED, the
   * motor driver enable line and the on-board user LED.
   */
  datatype Snapshot = Snapshot(
    doExecuteMainTask: bool,
    doResetAllOnce: bool,
    led1: Bit,
    enableMotors: Bit,
    userLed: Bit)

  /** Both flags start false; the pins start at whatever level they hold. */
  function Initial(led1: Bit, enableMotors: Bit, userLed: Bit): Snapshot {
    Snapshot(false, false, led1, enableMotors, userLed)
  }

  /** The state that both the button callback and the loop preserve. */
  predicate Consistent(s: Snapshot) {
    s.doExecuteMainTask ==> s.doResetAllOnce
  }

  /** The button callback: toggle the run flag and arm the reset when it became true. */
  function PressStep(s: Snapshot): Snapshot {
    var run := !s.doExecuteMainTask;
    s.(doExecuteMainTask := run, doResetAllOnce := if run then true else s.doResetAllOnce)
  }

  /** Whether a tick from `s` takes the "executed only once" branch. */
  predicate ResetFires(s: Snapshot) {
    !s.doExecuteMainTask && s.doResetAllOnce
  }

  /** The mode branch of the loop body followed by the user LED toggle. */
  function TickStep(s: Snapshot): Snapshot {
    var t :=
      if s.doExecuteMainTask then s.(led1 := 1, enableMotors := 1)
      else if s.doResetAllOnce then s.(doResetAllOnce := false, led1 := 0, enableMotors := 0)
      else s;
    t.(userLed := Invert(s.userLed))
  }

  datatype Event = ButtonPress | LoopTick

  function Step(s: Snapshot, e: Event): Snapshot {
    match e
    case ButtonPress => PressStep(s)
    case LoopTick => TickStep(s)
  }

  /** The snapshot after the events `evs`, oldest first. */
  function Run(s: Snapshot, evs: seq<Event>): Snapshot
    decreases |evs|
  {
    if evs == [] then s else Run(Step(s, evs[0]), evs[1..])
  }

  /** How many ticks of `evs` take the reset branch. */
  function ResetCount(s: Snapshot, evs: seq<Event>): nat
    decreases |evs|
  {
    if evs == [] then 0
    else (if evs[0] == LoopTick && ResetFires(s) then 1 else 0) + ResetCount(Step(s, evs[0]), evs[1..])
  }

  /** How many presses of `evs` switch the task from not running to running. */
  function Entries(s: Snapshot, evs: seq<Event>): nat
    decreases |evs|
  {
    if evs == [] then 0
    else (if evs[0] == ButtonPress && !s.doExecuteMainTask then 1 else 0) + Entries(Step(s, evs[0]), evs[1..])
  }

  /** How many presses `evs` holds. */
  function Presses(evs: seq<Event>): nat
    decreases |evs|
  {
    if evs == [] then 0 else (if evs[0] == ButtonPress then 1 else 0) + Presses(evs[1..])
  }

  function Repeat(e: Event, n: nat): (r: seq<Event>)
    ensures |r| == n
    ensures forall i :: 0 <= i < n ==> r[i] == e
  {
    if n == 0 then [] else [e] + Repeat(e, n - 1)
  }

  /**
   * Neither a press nor a tick breaks "running implies the reset is armed", and
   * only a tick that takes the reset branch disarms the reset.
   */
  lemma StepKeepsConsistent(s: Snapshot, e: Event)
    requires Consistent(s)
    ensures Consistent(Step(s, e))
    ensures s.doResetAllOnce && !Step(s, e).doResetAllOnce ==> e == LoopTick && ResetFires(s)
  {
  }

  /**
   * Any interleaving keeps the invariant, and an armed reset that is disarmed
   * by the end of it was disarmed by a tick that took the reset branch.
   */
  lemma {:induction false} RunKeepsConsistent(s: Snapshot, evs: seq<Event>)
    requires Consistent(s)
    ensures Consistent(Run(s, evs))
    ensures s.doResetAllOnce && !Run(s, evs).doResetAllOnce ==> ResetCount(s, evs) > 0
    decreases |evs|
  {
    if evs != [] {
      StepKeepsConsistent(s, evs[0]);
      RunKeepsConsistent(Step(s, evs[0]), evs[1..]);
    }
  }

  /** Only presses move the run flag, and each one flips it: its value is the parity of the presses. */
  lemma {:induction false} RunFlagIsPressParity(s: Snapshot, evs: seq<Event>)
    ensures Run(s, evs).doExecuteMainTask == (s.doExecuteMainTask != (Presses(evs) % 2 == 1))
    decreases |evs|
  {
    if evs != [] {
      RunFlagIsPressParity(Step(s, evs[0]), evs[1..]);
    }
  }

  lemma {:induction false} PressesInRepeat(e: Event, n: nat)
    ensures Presses(Repeat(e, n)) == if e == ButtonPress then n else 0
  {
    if n > 0 {
      PressesInRepeat(e, n - 1);
      assert Repeat(e, n)[1..] == Repeat(e, n - 1);
    }
  }

  /**
   * From the start-up state, after `n` presses with no tick in between the task
   * runs exactly when `n` is odd, and from the first press on the reset is armed.
   */
  lemma {:induction false} PressesFromStart(led1: Bit, enableMotors: Bit, userLed: Bit, n: nat)
    ensures Run(Initial(led1, enableMotors, userLed), Repeat(ButtonPress, n)).doExecuteMainTask <==> n % 2 == 1
    ensures Run(Initial(led1, enableMotors, userLed), Repeat(ButtonPress, n)).doResetAllOnce <==> n > 0
  {
    var s := Initial(led1, enableMotors, userLed);
    RunFlagIsPressParity(s, Repeat(ButtonPress, n));
    PressesInRepeat(ButtonPress, n);
    if n > 0 {
      assert Repeat(ButtonPress, n)[1..] == Repeat(ButtonPress, n - 1);
      PressesKeepReset(PressStep(s), n - 1);
    }
  }

  /** A press never disarms the reset. */
  lemma {:induction false} PressesKeepReset(s: Snapshot, n: nat)
    requires s.doResetAllOnce
    ensures Run(s, Repeat(ButtonPress, n)).doResetAllOnce
    decreases n
  {
    if n > 0 {
      assert Repeat(ButtonPress, n)[1..] == Repeat(ButtonPress, n - 1);
      PressesKeepReset(PressStep(s), n - 1);
    }
  }

  /**
   * A stretch of ticks while the task runs: the flags stay as they are, the
   * reset branch never fires, and from the first tick on the LED and the motor
   * driver are on.
   */
  lemma {:induction false} RunningTicks(s: Snapshot, n: nat)
    requires s.doExecuteMainTask
    ensures Run(s, Repeat(LoopTick, n)).doExecuteMainTask && Run(s, Repeat(LoopTick, n)).doResetAllOnce == s.doResetAllOnce
    ensures ResetCount(s, Repeat(LoopTick, n)) == 0
    ensures n > 0 ==> Run(s, Repeat(LoopTick, n)).led1 == 1 && Run(s, Repeat(LoopTick, n)).enableMotors == 1
    decreases n
  {
    if n > 0 {
      var t := TickStep(s);
      assert Repeat(LoopTick, n)[1..] == Repeat(LoopTick, n - 1);
      RunningTicks(t, n - 1);
    }
  }

  /**
   * A stretch of ticks while the task does not run: the reset branch fires on
   * the first tick if the reset is armed and never again, so after the stretch
   * both flags are false and the LED and the motor driver are off if it fired
   * and untouched if it did not.
   */
  lemma {:induction false} IdleTicksResetOnce(s: Snapshot, n: nat)
    requires !s.doExecuteMainTask
    ensures ResetCount(s, Repeat(LoopTick, n)) == if s.doResetAllOnce && n > 0 then 1 else 0
    ensures n > 0 ==> !Run(s, Repeat(LoopTick, n)).doExecuteMainTask && !Run(s, Repeat(LoopTick, n)).doResetAllOnce
    ensures n > 0 && s.doResetAllOnce ==> Run(s, Repeat(LoopTick, n)).led1 == 0 && Run(s, Repeat(LoopTick, n)).enableMotors == 0
    ensures !s.doResetAllOnce ==> Run(s, Repeat(LoopTick, n)).led1 == s.led1 && Run(s, Repeat(LoopTick, n)).enableMotors == s.enableMotors
    decreases n
  {
    if n > 0 {
      var t := TickStep(s);
      assert Repeat(LoopTick, n)[1..] == Repeat(LoopTick, n - 1);
      IdleTicksResetOnce(t, n - 1);
    }
  }

  /**
   * Over any interleaving of presses and ticks, the reset branch fires at most
   * once per press that starts the task, plus once for a reset already armed.
   */
  lemma {:induction false} ResetsBoundedByEntries(s: Snapshot, evs: seq<Event>)
    ensures ResetCount(s, evs) <= (if s.doResetAllOnce then 1 else 0) + Entries(s, evs)
    decreases |evs|
  {
    if evs != [] {
      ResetsBoundedByEntries(Step(s, evs[0]), evs[1..]);
    }
  }

  /** From start-up, every reset is paid for by a press that started the task. */
  lemma ResetsFromStart(led1: Bit, enableMotors: Bit, userLed: Bit, evs: seq<Event>)
    ensures ResetCount(Initial(led1, enableMotors, userLed), evs) <= Entries(Initial(led1, enableMotors, userLed), evs)
    ensures Consistent(Run(Initial(led1, enableMotors, userLed), evs))
  {
    ResetsBoundedByEntries(Initial(led1, enableMotors, userLed), evs);
    RunKeepsConsistent(Initial(led1, enableMotors, userLed), evs);
  }

  /**
   * The reset branch is reachable from start-up: a tick after a press that
   * stopped the task, or a tick after two presses in a row, takes it.
   */
  lemma ResetBranchReachable(led1: Bit, enableMotors: Bit, userLed: Bit)
    ensures ResetCount(Initial(led1, enableMotors, userLed), [ButtonPress, LoopTick, ButtonPress, LoopTick]) == 1
    ensures ResetCount(Initial(led1, enableMotors, userLed), [ButtonPress, ButtonPress, LoopTick]) == 1
    ensures Run(Initial(led1, enableMotors, userLed), [ButtonPress, ButtonPress, LoopTick]).led1 == 0
  {
  }
}
