/**
 * The once-per-event and once-per-frame rules of a round, over the counters
 * the game keeps: ranking, score, combo and multiplier with their expiry
 * steps. `Option` models the closure variables that stay `undefined` until
 * first set; a comparison with `undefined` is false.
 */
module Rules {
  import opened Wrappers
  import opened Consts
  import opened Helpers

  /** `3 * STEPS_PER_SECOND`: how long a combo stays alive after a divert. */
  const COMBO_WINDOW: int := 720
  /** `10 * STEPS_PER_SECOND`: how long a raised multiplier is protected. */
  const MULTIPLIER_WINDOW: int := 2400
  const MAX_RANKING: real := 100.0
  const SEARCH_REWARD: real := 10.0
  const NOT_FOUND_PENALTY: real := 3.0
  const SCORE_UNIT: int := 10

  lemma Windows()
    ensures COMBO_WINDOW as real == 3.0 * STEPS_PER_SECOND
    ensures MULTIPLIER_WINDOW as real == 10.0 * STEPS_PER_SECOND
  {
  }

  datatype Counters = Counters(
    ranking: real,
    score: int,
    combo: int,
    comboTime: Option<int>,
    multiplier: int,
    multiplierTime: Option<int>)

  /** `t >= step` where `t` may be undefined. */
  predicate Alive(t: Option<int>, step: int) {
    t.Some? && t.value >= step
  }

  /** `t < step` where `t` may be undefined. */
  predicate Lapsed(t: Option<int>, step: int) {
    t.Some? && t.value < step
  }

  /** What holds of the counters from construction on. */
  predicate Sound(c: Counters) {
    && c.ranking <= MAX_RANKING
    && c.multiplier >= 1
    && c.score >= 0
    && (c.comboTime.Some? ==> c.combo >= 1)
  }

  const Initial: Counters := Counters(MAX_RANKING, 0, 0, None, 1, None)

  lemma InitialSound()
    ensures Sound(Initial)
  {
  }

  /** `updateMultiplier(newValue)` at `step`. */
  function UpdateMultiplier(c: Counters, step: int, newValue: int): (r: Counters)
    ensures r == c <==> Alive(c.multiplierTime, step) && newValue <= c.multiplier
    ensures r != c ==> r == c.(multiplier := newValue, multiplierTime := Some(step + MULTIPLIER_WINDOW))
    ensures Alive(r.multiplierTime, step)
    ensures r.multiplier >= newValue || Alive(c.multiplierTime, step)
  {
    if Alive(c.multiplierTime, step) && newValue <= c.multiplier then c
    else c.(multiplier := newValue, multiplierTime := Some(step + MULTIPLIER_WINDOW))
  }

  /** Inside an active window the multiplier never drops, whatever value is offered. */
  lemma MultiplierNeverDropsInWindow(c: Counters, step: int, newValue: int)
    requires Alive(c.multiplierTime, step)
    ensures UpdateMultiplier(c, step, newValue).multiplier >= c.multiplier
    ensures UpdateMultiplier(c, step, newValue).multiplier == Max(c.multiplier as real, newValue as real) as int
  {
  }

  /** `increaseCombo()` at `step`. */
  function IncreaseCombo(c: Counters, step: int): (r: Counters)
    ensures r.combo == if Alive(c.comboTime, step) then c.combo + 1 else 1
    ensures r.comboTime == Some(step + COMBO_WINDOW)
    ensures r.multiplier >= r.combo
    ensures Alive(r.multiplierTime, step)
    ensures r.ranking == c.ranking && r.score == c.score
    ensures Sound(c) ==> Sound(r)
  {
    var combo := if Alive(c.comboTime, step) then c.combo + 1 else 1;
    UpdateMultiplier(c.(combo := combo, comboTime := Some(step + COMBO_WINDOW)), step, combo)
  }

  /** Lines 255-257 of the frame: a lapsed multiplier falls back to a live combo, or to 1. */
  function ExpireMultiplier(c: Counters, step: int): (r: Counters)
    ensures !Lapsed(c.multiplierTime, step) && c.multiplier >= 1 ==> r == c
    ensures Lapsed(c.multiplierTime, step) && c.multiplier > 0 ==>
      r == c.(multiplier := if Alive(c.comboTime, step) then c.combo else 1,
              multiplierTime := Some(step + MULTIPLIER_WINDOW))
    ensures Sound(c) ==> Sound(r)
  {
    if c.multiplier > 0 && Lapsed(c.multiplierTime, step) then
      UpdateMultiplier(c, step, if Alive(c.comboTime, step) then c.combo else 1)
    else c
  }

  /** A url reaching the search engine (Game.ts lines 153-161). */
  function Landed(c: Counters, code: int, dead: bool): (r: Counters)
    ensures dead ==> r == c
    ensures !dead && code == 404 ==> r == c.(ranking := c.ranking - NOT_FOUND_PENALTY)
    ensures !dead && code != 404 ==>
      r.ranking == Min(MAX_RANKING, c.ranking + SEARCH_REWARD) && r.score == c.score + SCORE_UNIT * c.multiplier
    ensures r.combo == c.combo && r.comboTime == c.comboTime
    ensures r.multiplier == c.multiplier && r.multiplierTime == c.multiplierTime
    ensures Sound(c) ==> Sound(r) && r.score >= c.score
  {
    if dead then c
    else if code == 404 then c.(ranking := c.ranking - NOT_FOUND_PENALTY)
    else c.(ranking := Min(MAX_RANKING, c.ranking + SEARCH_REWARD), score := c.score + SCORE_UNIT * c.multiplier)
  }

  /** A url leaving through the bottom edge (Game.ts lines 168-174). */
  function Diverted(c: Counters, code: int, dead: bool, step: int): (r: Counters)
    ensures code == 404 && !dead ==> r == IncreaseCombo(c, step)
    ensures code != 404 || dead ==> r == c
    ensures r.ranking == c.ranking && r.score == c.score
    ensures Sound(c) ==> Sound(r)
  {
    if code == 404 && !dead then IncreaseCombo(c, step) else c
  }

  /** A lone divert with no live combo gives combo 1; a second one inside the window gives combo 2 and multiplier 2. */
  lemma TwoDivertsMakeACombo(c: Counters, s1: int, s2: int)
    requires Sound(c) && c.multiplier == 1 && !Alive(c.comboTime, s1)
    requires s1 <= s2 <= s1 + COMBO_WINDOW
    ensures IncreaseCombo(c, s1).combo == 1 && IncreaseCombo(c, s1).multiplier == 1
    ensures IncreaseCombo(IncreaseCombo(c, s1), s2).combo == 2
    ensures IncreaseCombo(IncreaseCombo(c, s1), s2).multiplier == 2
  {
  }

  // The default rule hooks of a round (Game.ts lines 301-311).

  /** `120 * STEPS_PER_SECOND`: the ramp of the ranking decay. */
  const DECAY_RAMP: real := 120.0 * STEPS_PER_SECOND
  /** `60 * STEPS_PER_SECOND`: the ramp of the spawn interval. */
  const SPAWN_RAMP: real := 60.0 * STEPS_PER_SECOND
  const INITIAL_SPAWN_INTERVAL: real := 2.0 * STEPS_PER_SECOND
  const FINAL_SPAWN_INTERVAL: real := 0.5 * STEPS_PER_SECOND

  /** `spawnUrlCode` with `Math.random()` passed in as `draw`. */
  function DefaultSpawnCode(draw: real): (code: int)
    ensures code == 404 || code == 200
    ensures code == 404 <==> draw > 0.6
  {
    if draw > 0.6 then 404 else 200
  }

  /** How much `deteriorateRanking` takes off at `step`. */
  function DecayAmount(step: int): (d: real)
    ensures 0.5 <= d <= 2.5
    ensures step <= 0 ==> d == 0.5
    ensures step as real >= DECAY_RAMP ==> d == 2.5
  {
    0.5 + 2.0 * Clamp(0.0, 1.0, step as real / DECAY_RAMP)
  }

  /** How much `scheduleNextSpawn` adds at `step`. */
  function SpawnInterval(step: int): (i: real)
    ensures FINAL_SPAWN_INTERVAL <= i <= INITIAL_SPAWN_INTERVAL
    ensures 120.0 <= i <= 480.0
    ensures step <= 0 ==> i == INITIAL_SPAWN_INTERVAL
    ensures step as real >= SPAWN_RAMP ==> i == FINAL_SPAWN_INTERVAL
  {
    var progress := Clamp(0.0, 1.0, step as real / SPAWN_RAMP);
    INITIAL_SPAWN_INTERVAL + (FINAL_SPAWN_INTERVAL - INITIAL_SPAWN_INTERVAL) * progress
  }

  /** The game gets harder over time: later spawns come no less often, later decay is no milder. */
  lemma {:induction false} Ramps(s1: int, s2: int)
    requires s1 <= s2
    ensures SpawnInterval(s2) <= SpawnInterval(s1)
    ensures DecayAmount(s1) <= DecayAmount(s2)
  {
    ClampMonotone(0.0, 1.0, s1 as real / SPAWN_RAMP, s2 as real / SPAWN_RAMP);
    ClampMonotone(0.0, 1.0, s1 as real / DECAY_RAMP, s2 as real / DECAY_RAMP);
  }
}
