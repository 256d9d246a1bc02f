/**
 * The rule hooks a round calls (`spawnUrlCode`, `deteriorateRanking`,
 * `scheduleNextSpawn`): the round's own, or the tutorial's replacements,
 * which depend on the tutorial's current step.
 */
module Hooks {
  import opened Wrappers
  import Rules
  import Tutorial

  datatype Hooks = Normal | InTutorial(step: Option<Tutorial.Step>)

  /** The code of a new url; `draw` is the `Math.random()` the hook may consume. */
  function SpawnCode(h: Hooks, draw: real): (code: int)
    ensures code == 200 || code == 404
  {
    match h
    case Normal => Rules.DefaultSpawnCode(draw)
    case InTutorial(step) => Tutorial.SpawnCode(step, draw)
  }

  /** The ranking after one `deteriorateRanking()` at `step`. */
  function Deteriorate(h: Hooks, ranking: real, step: int): (r: real)
    ensures ranking <= Rules.MAX_RANKING ==> r <= Rules.MAX_RANKING
    ensures h.Normal? ==> ranking - 2.5 <= r <= ranking - 0.5
    ensures h.InTutorial? && h.step.Some? ==> r >= Tutorial.RANKING_FLOOR
  {
    match h
    case Normal => ranking - Rules.DecayAmount(step)
    case InTutorial(s) => Tutorial.Decay(s, ranking)
  }

  /** `nextSpawn` after one `scheduleNextSpawn()` at `step`. */
  function ScheduleNextSpawn(h: Hooks, nextSpawn: real, step: int): (r: real)
    ensures h.Normal? ==> nextSpawn + 120.0 <= r <= nextSpawn + 480.0
    ensures h.InTutorial? ==> r == nextSpawn + 240.0 || r == nextSpawn + 1200.0
    ensures r > nextSpawn
  {
    match h
    case Normal => nextSpawn + Rules.SpawnInterval(step)
    case InTutorial(s) => nextSpawn + Tutorial.SpawnInterval(s)
  }
}
