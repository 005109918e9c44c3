/**
 * The once-a-second update the countdown and the pomodoro timer apply to
 * their remaining seconds: `prev <= 1 ? 0 : prev - 1`, the tick that sees
 * `prev <= 1` being the one that completes the run.
 */
module Tick {

  /** The tick that sees this many seconds left completes the run. */
  predicate Completes(prev: int) { prev <= 1 }

  function Step(prev: int): int
  {
    if Completes(prev) then 0 else prev - 1
  }

  /** The remaining seconds after `k` ticks of a run that has not completed before them. */
  function After(start: int, k: nat): int
  {
    if k == 0 then start else Step(After(start, k - 1))
  }

  /** One tick never leaves a negative value, and from a positive value it takes away exactly one second. */
  lemma StepBounds(prev: int)
    ensures Step(prev) >= 0
    ensures prev >= 1 ==> Step(prev) == prev - 1
    ensures Step(prev) == 0 <==> Completes(prev)
  {
  }

  /**
   * A run started with `start >= 1` seconds is still going after each of its
   * first `start - 1` ticks, with exactly one second fewer per tick; the tick
   * number `start` is the one that completes it, leaving 0.
   */
  lemma {:induction false} CompletesOnLastTick(start: int, k: nat)
    requires 1 <= start && k < start
    ensures After(start, k) == start - k
    ensures Completes(After(start, k)) <==> k == start - 1
    ensures After(start, k + 1) == start - k - 1
  {
    if k > 0 {
      CompletesOnLastTick(start, k - 1);
    }
  }
}
