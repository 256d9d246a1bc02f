/**
 * The fixed-step clock of `animate`: a wall-clock delta, capped at 500 ms and
 * increased by the carried remainder, becomes a whole number of steps; what
 * is left over is carried to the next frame.
 */
module Clock {
  import opened Consts
  import opened Helpers

  const MAX_FRAME_GAP: real := 500.0

  datatype Frame = Frame(timeGap: real, stepsToRun: int, carried: real)

  /** One frame of the clock: `timeGap`, `stepsTorun` and the new `gameTimeGap`. */
  function Advance(currentTime: real, previousTime: real, gameTimeGap: real): (f: Frame)
    ensures f.timeGap <= MAX_FRAME_GAP
    ensures f.timeGap <= currentTime - previousTime + gameTimeGap
    ensures f.timeGap == MAX_FRAME_GAP || f.timeGap == currentTime - previousTime + gameTimeGap
    ensures f.stepsToRun <= 120
    ensures f.stepsToRun as real / STEPS_PER_MILISECOND + f.carried == f.timeGap
    ensures -1.0 / STEPS_PER_MILISECOND < f.carried < 1.0 / STEPS_PER_MILISECOND
    ensures f.timeGap >= 0.0 ==> f.stepsToRun >= 0 && f.carried >= 0.0
    ensures f.timeGap < 0.0 ==> f.stepsToRun <= 0 && f.carried <= 0.0
  {
    var timeGap := Min(MAX_FRAME_GAP, currentTime - previousTime + gameTimeGap);
    var steps := Trunc(timeGap * STEPS_PER_MILISECOND);
    assert steps as real <= 120.0 by {
      assert timeGap * STEPS_PER_MILISECOND <= 120.0;
    }
    Frame(timeGap, steps, timeGap - steps as real / STEPS_PER_MILISECOND)
  }

  /** The number of ticks the counting loop runs for a frame. */
  function TicksRun(f: Frame): (n: nat)
    ensures f.stepsToRun > 0 ==> n == f.stepsToRun
    ensures f.stepsToRun <= 0 ==> n == 0
  {
    if f.stepsToRun > 0 then f.stepsToRun else 0
  }

  /** A stalled host never produces more than 120 ticks in a frame, however long the stall. */
  lemma CatchUpCapped(previousTime: real, currentTime: real, gameTimeGap: real)
    requires currentTime - previousTime + gameTimeGap >= MAX_FRAME_GAP
    ensures Advance(currentTime, previousTime, gameTimeGap).timeGap == MAX_FRAME_GAP
    ensures Advance(currentTime, previousTime, gameTimeGap).stepsToRun == 120
    ensures Advance(currentTime, previousTime, gameTimeGap).carried == 0.0
  {
  }

  /** A frame 3 ms after the last one runs no step and carries all 3 ms. */
  lemma ShortFrame()
    ensures Advance(3.0, 0.0, 0.0) == Frame(3.0, 0, 3.0)
  {
  }

  /**
   * The first frame after `initialize(t + 1000)` sees a negative elapsed time:
   * it runs no tick and carries less than one step's length (in either sign),
   * so from the next frame on the clock runs as if the delay had not been there.
   */
  lemma {:induction false} FirstFrameAfterDelay(t: real, frameTime: real)
    requires 0.0 <= frameTime - t < 1000.0
    ensures TicksRun(Advance(frameTime, t + 1000.0, 0.0)) == 0
    ensures Advance(frameTime, t + 1000.0, 0.0).carried <= 0.0
  {
    var f := Advance(frameTime, t + 1000.0, 0.0);
    assert f.timeGap == frameTime - (t + 1000.0);
  }

  /**
   * When that first frame comes more than one step's length before the end of
   * the delay, `stepsTorun` is negative: the counting loop sees a target behind
   * the current step and runs nothing.
   */
  lemma {:induction false} FirstFrameStepsBack(t: real, frameTime: real)
    requires 0.0 <= frameTime - t < 1000.0 - 1.0 / STEPS_PER_MILISECOND
    ensures Advance(frameTime, t + 1000.0, 0.0).stepsToRun < 0
  {
    var f := Advance(frameTime, t + 1000.0, 0.0);
    assert f.timeGap == frameTime - (t + 1000.0);
    assert f.timeGap < -1.0 / STEPS_PER_MILISECOND;
  }
}
