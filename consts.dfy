/** The unit constants every rule of the simulation is written in. */
module Consts {

  /** One simulation step is 1/240 of a second. */
  const STEPS_PER_SECOND: real := 240.0
  const STEPS_PER_MILISECOND: real := STEPS_PER_SECOND / 1000.0
  /** A speed of one world unit per second, expressed per step. */
  const SPEED_UNIT: real := 1.0 / STEPS_PER_SECOND
  /** An acceleration of one world unit per second squared, expressed per step squared. */
  const ACCELERATION_UNIT: real := SPEED_UNIT / STEPS_PER_SECOND
  const GRAVITY: real := 1000.0 * ACCELERATION_UNIT
  const TERMINAL_VELOCITY: real := 5000.0 * SPEED_UNIT
  const WORLD_SIZE: real := 1000.0
  const URL_RADIUS: real := WORLD_SIZE / 50.0

  lemma StepRate()
    ensures STEPS_PER_MILISECOND == 0.24
    ensures STEPS_PER_MILISECOND * 1000.0 == STEPS_PER_SECOND
  {
  }

  lemma SpeedUnits()
    ensures SPEED_UNIT * STEPS_PER_SECOND == 1.0
    ensures ACCELERATION_UNIT == 1.0 / (240.0 * 240.0)
  {
  }

  lemma FallConstants()
    ensures GRAVITY == 1000.0 / (240.0 * 240.0) && GRAVITY > 0.0
    ensures TERMINAL_VELOCITY == 5000.0 / 240.0 && TERMINAL_VELOCITY > 0.0
    ensures 1200.0 * GRAVITY == TERMINAL_VELOCITY
  {
  }

  lemma Sizes()
    ensures WORLD_SIZE == 1000.0 && URL_RADIUS == 20.0
  {
  }

  /** Vertical speed after `n` steps of gravity with the terminal-velocity cap, from `v0`. */
  function FallSpeed(v0: real, n: nat): (v: real)
    decreases n
  {
    if n == 0 then v0
    else
      var prev := FallSpeed(v0, n - 1);
      if prev + GRAVITY < TERMINAL_VELOCITY then prev + GRAVITY else TERMINAL_VELOCITY
  }

  /** From rest, each gravity step adds GRAVITY until the cap, which is reached after exactly 1200 steps. */
  lemma {:induction false} FallFromRest(n: nat)
    ensures FallSpeed(0.0, n) == if n < 1200 then (n as real) * GRAVITY else TERMINAL_VELOCITY
    ensures n < 1200 ==> FallSpeed(0.0, n) < TERMINAL_VELOCITY
  {
    if n > 0 {
      FallFromRest(n - 1);
    }
  }
}
