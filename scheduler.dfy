/**
 * The periodic scheduler's end-of-tick decision: after the body of the main
 * loop has run, the elapsed time in milliseconds is compared with the fixed
 * task period and the thread either sleeps for the remainder or, on an
 * overrun, prints a warning and starts the next tick at once.
 */
module Scheduler {

  /** The main task period in milliseconds (50 ticks per second). */
  const MAIN_TASK_PERIOD_MS: int := 20

  /** What the tick does once its body is done: warn and go on, or sleep. */
  datatype Decision =
    | Overrun            // the warning line is printed, `thread_sleep_for` is not called
    | Sleep(ms: nat)     // `thread_sleep_for(ms)`

  /**
   * The decision for a tick whose body took `elapsed` milliseconds against a
   * budget of `period` milliseconds. The guard is the signed difference
   * `period - elapsed < 0`, so a tick that takes exactly its period is not an
   * overrun: it sleeps zero milliseconds and prints nothing.
   */
  function SleepDecision(period: int, elapsed: int): (d: Decision)
    ensures d.Overrun? <==> elapsed > period
    ensures d.Sleep? ==> period == elapsed + d.ms
    ensures d.Sleep? && elapsed >= 0 ==> d.ms <= period
    ensures elapsed == period ==> d == Sleep(0)
  {
    var remaining := period - elapsed;
    if remaining < 0 then Overrun else Sleep(remaining)
  }

  /**
   * With the 20 ms period of `main.cpp`: a 5 ms body sleeps 15 ms, a 25 ms body
   * warns, a 20 ms body sleeps 0 ms without a warning, and any body time from
   * 0 to the period never yields a sleep longer than the period.
   */
  lemma MainPeriodScenarios(elapsed: int)
    requires 0 <= elapsed <= MAIN_TASK_PERIOD_MS
    ensures SleepDecision(MAIN_TASK_PERIOD_MS, 5) == Sleep(15)
    ensures SleepDecision(MAIN_TASK_PERIOD_MS, 25) == Overrun
    ensures SleepDecision(MAIN_TASK_PERIOD_MS, MAIN_TASK_PERIOD_MS) == Sleep(0)
    ensures SleepDecision(MAIN_TASK_PERIOD_MS, elapsed).Sleep?
    ensures SleepDecision(MAIN_TASK_PERIOD_MS, elapsed).ms + elapsed == MAIN_TASK_PERIOD_MS
  {
  }
}
