# Mode state machine of the PES board main loop

This project models the control core of `src/main.cpp`. That file is an mbed
program that runs a DC motor from a loop with a 20 ms period. The user button
starts and stops the main task. The core has three parts:

- **The button callback** (`toggle_do_execute_main_fcn`). It toggles the
  global flag `do_execute_main_task`. When the flag becomes true, it also arms
  the one-shot flag `do_reset_all_once`.
- **The mode branch of the loop body.** While the task runs, each tick drives
  the extra LED `led1` and the motor driver enable line `enable_motors` to 1.
  When a tick finds the task stopped and the reset armed, it drives both to 0
  and disarms the reset, so this happens only once. When a tick finds the
  task stopped and the reset disarmed, it does nothing. Every tick also
  toggles the on-board `user_led`.
- **The end-of-tick sleep decision.** The loop prints a warning and skips
  the sleep when `period - elapsed` is negative. Otherwise it sleeps
  `period - elapsed` milliseconds.

Files:

- `scheduler.dfy` (module `Scheduler`) holds the period constant and the
  pure function `SleepDecision`.
- `mode.dfy` (module `Mode`) holds the state machine as values. A
  `Snapshot` records both flags and the three pins. `PressStep` and
  `TickStep` give the effect of one event. `Run` replays any interleaving of
  presses and ticks. The lemmas about whole event sequences are here too.
- `controller.dfy` (module `Controller`) holds the class `MainTask`. Its
  fields are the two global flags and the three pins. The methods `Press`
  and `Tick` update them in place, and each method's contract ties the new
  state to `PressStep` or `TickStep` of the old state.

A button press is an atomic event that happens between ticks. The time a
tick measures is a parameter of `Tick`.

Three consequences of the code in `main.cpp` are worth stating:

- The overrun test at `main.cpp:119` is `period - elapsed < 0`. A tick that
  takes exactly 20 ms is therefore not an overrun: it sleeps 0 ms and prints
  no warning (`SleepDecision`).
- The idle reset branch is reachable. Press, tick, press, tick fires it on
  the first idle tick, and so do two presses followed by one tick
  (`Mode.ResetBranchReachable`, `Controller.PressTickPressTick`).
- The reset flag stays armed for as long as the task runs. Only the first
  idle tick clears it (`Mode.RunningTicks`, `Mode.RunKeepsConsistent`).

## Model

| member | source | states |
|---|---|---|
| `Scheduler.SleepDecision` | src/main.cpp:118-122 | the tick warns and does not sleep exactly when elapsed > period; otherwise it sleeps `period - elapsed`, which is never negative, is at most the period when elapsed ≥ 0, and is 0 with no warning when elapsed equals the period |
| `Scheduler.MainPeriodScenarios` | src/main.cpp:118-122 | with the 20 ms period, a 5 ms body sleeps 15 ms, a 25 ms body warns, a 20 ms body sleeps 0 ms, and any body time from 0 to 20 ms sleeps the rest of the period |
| `Mode.Invert` | src/main.cpp:114 | toggling a pin always changes its level |
| `Mode.StepKeepsConsistent` | src/main.cpp:89-108 | neither a press nor a tick breaks "running implies the reset is armed"; only a tick taking the idle reset branch disarms the reset |
| `Mode.RunKeepsConsistent` | src/main.cpp:89-133 | any interleaving of presses and ticks keeps "running implies the reset is armed"; an armed reset that ends up disarmed was disarmed by at least one tick taking the idle reset branch |
| `Mode.RunFlagIsPressParity` | src/main.cpp:129 | after any interleaving, the run flag equals its start value flipped once per press; ticks never write it |
| `Mode.PressesFromStart` | src/main.cpp:12-14 | starting from both flags false, after n presses with no tick between them the task runs iff n is odd, and the reset is armed iff n > 0 |
| `Mode.PressesKeepReset` | src/main.cpp:131-132 | presses never disarm an armed reset |
| `Mode.RunningTicks` | src/main.cpp:89-96 | ticks while the task runs leave both flags unchanged, never fire the reset, and leave `led1` and `enable_motors` at 1 from the first tick on |
| `Mode.IdleTicksResetOnce` | src/main.cpp:98-107 | in a stretch of idle ticks the reset fires once if it was armed and never again; afterwards both flags are false, and both outputs are 0 if the reset fired and unchanged if it did not |
| `Mode.ResetsBoundedByEntries` | src/main.cpp:98-107 | over any interleaving, the reset fires at most once per press that starts the task, plus once for a reset already armed |
| `Mode.ResetsFromStart` | src/main.cpp:12-14 | from start-up, the number of resets never exceeds the number of presses that started the task, and the invariant holds after any interleaving |
| `Mode.ResetBranchReachable` | src/main.cpp:98-107 | from start-up, press-tick-press-tick and press-press-tick each fire the reset exactly once, and the latter switches `led1` off |
| `Controller.MainTask.constructor` | src/main.cpp:12-14 | both flags start false, the pins keep their levels, and the invariant holds |
| `Controller.MainTask.Press` | src/main.cpp:126-133 | a press flips the run flag; it arms the reset exactly when the new run flag is true and otherwise leaves the reset unchanged; it touches no output and keeps the invariant |
| `Controller.MainTask.Tick` | src/main.cpp:82-123 | the tick never writes the run flag and always toggles `user_led`; while running it sets `led1` and `enable_motors` to 1 and keeps the reset; while idle with the reset armed it sets both to 0 and disarms the reset; while idle with the reset disarmed it changes neither; it keeps the invariant and returns `SleepDecision(20, elapsed)` |
| `Controller.PressTickPressTick` | src/main.cpp:89-133 | a client run from start-up: press, tick, press, tick switches the outputs off on the first idle tick; after a further idle tick both outputs are 0 and both flags are false |

## Left out

- Velocity governor: `setMaxVelocity(getMaxPhysicalVelocity() * 0.5f)` and `setMaxAcceleration(... * 0.5f)` are float arithmetic passed into the motor driver, whose source is not part of this model.
- Hardware objects: `DCMotor`, `DebounceIn`, `FastPWM`, the `DigitalOut`/`DigitalIn` pin construction, the unused mechanical button and the `Timer` are board driver classes. Their sources are not part of this model. The outputs are reduced to 0/1 levels, and the initial pin levels are constructor parameters.
- I/O and sleeping: the `printf` of the motor velocity and of the warning, and `thread_sleep_for`, are side effects. Only the decision (warn, or sleep n ms) is modelled.
- Time: the elapsed milliseconds come from the timer. They are a parameter of `Tick`. The narrowing of the millisecond count to a 32-bit `int` is not modelled, because the count is never negative and stays far below the 32-bit range.
- Interrupt concurrency: the button callback runs asynchronously and could interleave in the middle of a tick. The model treats each press as an atomic event between ticks, and the invariant "running implies the reset is armed" holds only under that assumption. A press that lands after the tick reads `do_execute_main_task` as false (`main.cpp:89`) and before it reads `do_reset_all_once` (`main.cpp:100`) lets the tick disarm the reset while the task runs. A later stop press then leaves `led1` and `enable_motors` at 1 while the task is stopped. The model does not capture this.
- The infinite loop: the model has a single `Tick`. `Mode.Run` covers arbitrary finite sequences of presses and ticks.
