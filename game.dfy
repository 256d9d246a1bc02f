/**
 * The round engine: the state `createGame` keeps in its closure and in
 * `state`, the one-step `tick`, and the frame function `animate` that turns
 * wall-clock time into ticks and then applies the once-per-frame rules.
 * Timestamps, `Math.random()` draws and the pointer position are parameters;
 * geometry comes from the `Oracles` the game is built with.
 */
module Game {
  import opened Wrappers
  import opened Vectorial
  import opened Geometry
  import opened Consts
  import opened Urls
  import opened Robots
  import opened Rules
  import opened Lifecycle
  import Pairs
  import Clock
  import Hooks
  import Helpers

  /** The step counters and timestamps of a round. */
  datatype Schedule = Schedule(
    currentStep: int,
    nextSpawn: real,
    nextRankingDeterioration: int,
    gameTimeGap: real,
    previousTime: real,
    initialized: bool)

  /** `0.2 * STEPS_PER_SECOND`: the ranking decays every 48 steps. */
  const DECAY_PERIOD: int := 48
  /** `0.02 * STEPS_PER_SECOND`: after the end, urls rain every 4.8 steps. */
  const STORM_PERIOD: real := 0.02 * STEPS_PER_SECOND
  /** `2 * STEPS_PER_SECOND`: the first spawn comes two seconds after `initialize`. */
  const FIRST_SPAWN: real := 2.0 * STEPS_PER_SECOND

  /** `(0.1 + 0.8 * Math.random()) * WORLD_SIZE`: where a url appears. */
  function SpawnX(draw: real): (x: real)
    ensures 0.0 <= draw < 1.0 ==> 0.1 * WORLD_SIZE <= x < 0.9 * WORLD_SIZE
  {
    (0.1 + 0.8 * draw) * WORLD_SIZE
  }

  /** `(Math.random() - 0.5) * 1000 * SPEED_UNIT`: the sideways speed of a url spawned after the end. */
  function StormSpeed(draw: real): (vx: real)
    ensures 0.0 <= draw < 1.0 ==> -500.0 * SPEED_UNIT <= vx < 500.0 * SPEED_UNIT
  {
    (draw - 0.5) * 1000.0 * SPEED_UNIT
  }

  /** Changing nothing but speeds keeps the creation order of the urls and their ids. */
  lemma SpeedsKeepIds(vs: seq<UrlView>, ws: seq<UrlView>, next: int)
    requires IncreasingIds(vs) && IdsBelow(vs, next)
    requires |ws| == |vs| && forall k :: 0 <= k < |vs| ==> Pairs.SameButSpeed(ws[k], vs[k])
    ensures IncreasingIds(ws) && IdsBelow(ws, next)
  {
    forall i, j | 0 <= i < j < |ws|
      ensures ws[i].id < ws[j].id
    {
      assert Pairs.SameButSpeed(ws[i], vs[i]) && Pairs.SameButSpeed(ws[j], vs[j]);
    }
  }

  /** The robot's motion: where it is, how fast it goes, and its head and body in world coordinates. */
  datatype Motion = Motion(position: Vec, speed: Vec, head: Vec, transformed: seq<seq<Vec>>)

  /** What one tick reads and writes: the counters, the last deletion, the urls and the robot's motion. */
  datatype Snapshot = Snapshot(counters: Rules.Counters, last: Option<Deletion>, urls: seq<UrlView>, motion: Motion)

  /**
   * The robot part of `tick()`: it moves by its speed, then `step()` places
   * the head and the body polygons and steers towards the pointer.
   */
  function MoveOf(geo: Oracles, m: Motion, polygons: seq<seq<Vec>>, width: real, mouseX: real): Motion {
    var position := Add(m.position, m.speed);
    Motion(position,
           Vec(m.speed.x + ControlDelta(position.x, m.speed.x, Target(width, mouseX)), m.speed.y),
           Add(position, HEAD_RELATIVE),
           seq(|polygons|, i requires 0 <= i < |polygons| => geo.transform(polygons[i], position, m.speed.x)))
  }

  /**
   * The url loops of `tick()` with the robot already at `m`: the sweep, the
   * url-against-url pass (robot alive only) and the robot-collision pass.
   */
  function UrlLoops(geo: Oracles, s: Snapshot, m: Motion, dead: bool, step: int): Snapshot {
    var swept := Sweep(geo, Round(s.counters, s.last, []), s.urls, dead, step);
    Snapshot(swept.counters, swept.last,
             RobotPass(geo, if dead then swept.survivors else Pairs.PairPass(Pairs.Resolve(geo), swept.survivors), m.head, m.transformed, m.speed),
             m)
  }

  /** `tick()` on values: the robot part, then the url loops. */
  function TickOf(geo: Oracles, s: Snapshot, polygons: seq<seq<Vec>>, width: real, dead: bool, step: int, mouseX: real): Snapshot {
    UrlLoops(geo, s, MoveOf(geo, s.motion, polygons, width, mouseX), dead, step)
  }

  /** `n` steps of `step` from `s`, the first at `start`. */
  function Iterate(step: (Snapshot, int) -> Snapshot, s: Snapshot, start: int, n: nat): Snapshot
    decreases n
  {
    if n == 0 then s else Iterate(step, step(s, start), start + 1, n - 1)
  }

  /** The last of `n + 1` steps comes after the first `n`. */
  lemma {:induction false} IterateLast(step: (Snapshot, int) -> Snapshot, s: Snapshot, start: int, n: nat)
    ensures Iterate(step, s, start, n + 1) == step(Iterate(step, s, start, n), start + n)
    decreases n
  {
    if n > 0 {
      IterateLast(step, step(s, start), start + 1, n - 1);
    }
  }

  /** One step at `at`, the `n + 1`-th from `start`, after the first `n`. */
  lemma IterateNext(step: (Snapshot, int) -> Snapshot, s: Snapshot, before: Snapshot, after: Snapshot, start: int, at: int, n: nat)
    requires at == start + n && before == Iterate(step, s, start, n) && after == step(before, at)
    ensures after == Iterate(step, s, start, n + 1)
  {
    IterateLast(step, s, start, n);
  }

  /** `tick()` at a given step, with the robot's shape, the liveness and the pointer fixed. */
  function TickAt(geo: Oracles, polygons: seq<seq<Vec>>, width: real, dead: bool, mouseX: real): (Snapshot, int) -> Snapshot {
    (s: Snapshot, step: int) => TickOf(geo, s, polygons, width, dead, step, mouseX)
  }

  /** `n` ticks from `s`, the first at step `start`. */
  function Ticks(geo: Oracles, s: Snapshot, polygons: seq<seq<Vec>>, width: real, dead: bool, mouseX: real, start: int, n: nat): Snapshot {
    Iterate(TickAt(geo, polygons, width, dead, mouseX), s, start, n)
  }

  /** A tick after the ticks from `start` up to `step` gives the ticks up to `step + 1`. */
  lemma TicksNext(geo: Oracles, s: Snapshot, before: Snapshot, after: Snapshot, polygons: seq<seq<Vec>>, width: real, dead: bool, mouseX: real, start: int, step: int)
    requires start <= step
    requires before == Ticks(geo, s, polygons, width, dead, mouseX, start, step - start)
    requires after == TickOf(geo, before, polygons, width, dead, step, mouseX)
    ensures after == Ticks(geo, s, polygons, width, dead, mouseX, start, step + 1 - start)
  {
    IterateNext(TickAt(geo, polygons, width, dead, mouseX), s, before, after, start, step, step - start);
  }

  /** The round invariant a tick keeps: sound counters, and urls in creation order with ids already drawn. */
  predicate TickSound(s: Snapshot, next: int) {
    Sound(s.counters) && IncreasingIds(s.urls) && IdsBelow(s.urls, next)
  }

  /** The two collision passes of a tick change speeds only, so they keep the creation order and the ids. */
  lemma PassesKeepIds(geo: Oracles, vs: seq<UrlView>, dead: bool, head: Vec, transformed: seq<seq<Vec>>, speed: Vec, next: int)
    requires IncreasingIds(vs) && IdsBelow(vs, next)
    ensures var u := RobotPass(geo, if dead then vs else Pairs.PairPass(Pairs.Resolve(geo), vs), head, transformed, speed);
      IncreasingIds(u) && IdsBelow(u, next) && |u| == |vs|
  {
    var paired := if dead then vs else Pairs.PairPass(Pairs.Resolve(geo), vs);
    if !dead {
      Pairs.PassOnlySpeeds(geo, vs);
      SpeedsKeepIds(vs, paired, next);
    }
    var u := RobotPass(geo, paired, head, transformed, speed);
    assert forall k :: 0 <= k < |paired| ==> Pairs.SameButSpeed(u[k], paired[k]);
    SpeedsKeepIds(paired, u, next);
  }

  /**
   * From `s` to `r` the round invariant holds, the score does not drop, no
   * url is added, and with the robot dead the counters stay as they were.
   */
  predicate Keeps(s: Snapshot, r: Snapshot, dead: bool, next: int) {
    && TickSound(r, next)
    && r.counters.score >= s.counters.score
    && |r.urls| <= |s.urls|
    && (dead ==> r.counters == s.counters)
  }

  lemma KeepsChain(a: Snapshot, b: Snapshot, c: Snapshot, dead: bool, next: int)
    requires Keeps(a, b, dead, next) && Keeps(b, c, dead, next)
    ensures Keeps(a, c, dead, next)
  {
  }

  /** A tick keeps the round invariant, the score bound and the count of urls. */
  lemma TickKeeps(geo: Oracles, s: Snapshot, r: Snapshot, polygons: seq<seq<Vec>>, width: real, dead: bool, step: int, mouseX: real, next: int)
    requires TickSound(s, next) && r == TickOf(geo, s, polygons, width, dead, step, mouseX)
    ensures Keeps(s, r, dead, next)
  {
    var start := Round(s.counters, s.last, []);
    var swept := Sweep(geo, start, s.urls, dead, step);
    SweepCounters(geo, start, s.urls, dead, step);
    SweepSurvivors(geo, start, s.urls, dead, step);
    SweepKeepsIds(geo, s.counters, s.last, s.urls, dead, step, next);
    assert r.counters == swept.counters;
    assert r.urls == RobotPass(geo, if dead then swept.survivors else Pairs.PairPass(Pairs.Resolve(geo), swept.survivors), r.motion.head, r.motion.transformed, r.motion.speed);
    PassesKeepIds(geo, swept.survivors, dead, r.motion.head, r.motion.transformed, r.motion.speed, next);
  }

  /** Any number of ticks keeps the round invariant, the score bound and the count of urls. */
  lemma {:induction false} TicksKeep(geo: Oracles, s: Snapshot, polygons: seq<seq<Vec>>, width: real, dead: bool, mouseX: real, start: int, n: nat, next: int)
    requires TickSound(s, next)
    ensures Keeps(s, Ticks(geo, s, polygons, width, dead, mouseX, start, n), dead, next)
    decreases n
  {
    if n > 0 {
      var first := TickOf(geo, s, polygons, width, dead, start, mouseX);
      var rest := Ticks(geo, first, polygons, width, dead, mouseX, start + 1, n - 1);
      TickKeeps(geo, s, first, polygons, width, dead, start, mouseX, next);
      TicksKeep(geo, first, polygons, width, dead, mouseX, start + 1, n - 1, next);
      KeepsChain(s, first, rest, dead, next);
      assert Ticks(geo, s, polygons, width, dead, mouseX, start, n) == rest;
    }
  }

  /** A tick after the ticks from `start` up to `step` keeps the round invariant and gives the ticks up to `step + 1`. */
  lemma TickAdvance(geo: Oracles, s: Snapshot, before: Snapshot, after: Snapshot, polygons: seq<seq<Vec>>, width: real, dead: bool, mouseX: real, start: int, step: int, next: int)
    requires start <= step && TickSound(before, next)
    requires before == Ticks(geo, s, polygons, width, dead, mouseX, start, step - start)
    requires after == TickOf(geo, before, polygons, width, dead, step, mouseX)
    ensures after == Ticks(geo, s, polygons, width, dead, mouseX, start, step + 1 - start)
    ensures Keeps(before, after, dead, next)
  {
    TickKeeps(geo, before, after, polygons, width, dead, step, mouseX, next);
    TicksNext(geo, s, before, after, polygons, width, dead, mouseX, start, step);
  }

  /** The url `animate` spawns: the next id, a code from the hooks, at the top edge, raining sideways once the robot is dead. */
  function NewUrl(id: int, hooks: Hooks.Hooks, dead: bool, spawnDraw: real, codeDraw: real, speedDraw: real): UrlView {
    UrlView(id, Hooks.SpawnCode(hooks, codeDraw), Vec(SpawnX(spawnDraw), -URL_RADIUS),
            Vec(if dead then StormSpeed(speedDraw) else 0.0, 0.0))
  }

  /** The spawn time after a spawn: the storm period once the robot is dead, otherwise the hooks' schedule. */
  function Rescheduled(hooks: Hooks.Hooks, nextSpawn: real, dead: bool, step: int): real {
    if dead then nextSpawn + STORM_PERIOD else Hooks.ScheduleNextSpawn(hooks, nextSpawn, step)
  }

  /** Everything a frame of `animate` can change: the tick snapshot, the clocks, the end flag, `Url.nextId` and the hooks. */
  datatype RoundState = RoundState(snap: Snapshot, clocks: Schedule, dead: bool, next: int, hooks: Hooks.Hooks)

  /** The spawn of a frame: once `nextSpawn` is behind the current step, one url with the next id and a new spawn time. */
  function SpawnOf(s: RoundState, spawnDraw: real, codeDraw: real, speedDraw: real): RoundState {
    if s.clocks.nextSpawn < s.clocks.currentStep as real then
      s.(snap := s.snap.(urls := s.snap.urls + [NewUrl(s.next, s.hooks, s.dead, spawnDraw, codeDraw, speedDraw)]),
         clocks := s.clocks.(nextSpawn := Rescheduled(s.hooks, s.clocks.nextSpawn, s.dead, s.clocks.currentStep)),
         next := s.next + 1)
    else s
  }

  /** The ranking decay of a frame: while the robot is alive and the decay step is behind, one decay and the next decay step. */
  function DecayOf(s: RoundState): RoundState {
    if !s.dead && s.clocks.nextRankingDeterioration < s.clocks.currentStep then
      s.(snap := s.snap.(counters := s.snap.counters.(ranking := Hooks.Deteriorate(s.hooks, s.snap.counters.ranking, s.clocks.currentStep))),
         clocks := s.clocks.(nextRankingDeterioration := s.clocks.nextRankingDeterioration + DECAY_PERIOD))
    else s
  }

  /** The multiplier expiry of a frame. */
  function ExpiryOf(s: RoundState): RoundState {
    s.(snap := s.snap.(counters := Rules.ExpireMultiplier(s.snap.counters, s.clocks.currentStep)))
  }

  /** The end test of a frame: a ranking that differs from `previousRanking` and is no longer positive kills the robot and starts the storm now. */
  function EndOf(s: RoundState, previousRanking: real): RoundState {
    if s.snap.counters.ranking != previousRanking && s.snap.counters.ranking <= 0.0 then
      s.(dead := true, clocks := s.clocks.(nextSpawn := s.clocks.currentStep as real))
    else s
  }

  /** The once-per-frame rules of `animate` after its ticks, in the source's order. */
  function AfterOf(s: RoundState, previousRanking: real, spawnDraw: real, codeDraw: real, speedDraw: real): RoundState {
    EndOf(ExpiryOf(DecayOf(SpawnOf(s, spawnDraw, codeDraw, speedDraw))), previousRanking)
  }

  /**
   * The first part of an `animate(currentTime)` frame on a round state: the
   * clock turns the time since `previousTime` into ticks, and they run.
   */
  function TickedOf(geo: Oracles, polygons: seq<seq<Vec>>, width: real, s: RoundState, currentTime: real, mouseX: real): RoundState
  {
    var f := Clock.Advance(currentTime, s.clocks.previousTime, s.clocks.gameTimeGap);
    RoundState(
      Ticks(geo, s.snap, polygons, width, s.dead, mouseX, s.clocks.currentStep, Clock.TicksRun(f)),
      s.clocks.(currentStep := s.clocks.currentStep + Clock.TicksRun(f), gameTimeGap := f.carried, previousTime := currentTime),
      s.dead, s.next, s.hooks)
  }

  /**
   * One `animate(currentTime)` frame on a round state: its ticks, then the
   * once-per-frame rules, which judge the end against the ranking the frame
   * started with.
   */
  function FrameOf(geo: Oracles, polygons: seq<seq<Vec>>, width: real, s: RoundState,
                   currentTime: real, mouseX: real, spawnDraw: real, codeDraw: real, speedDraw: real): RoundState
  {
    AfterOf(TickedOf(geo, polygons, width, s, currentTime, mouseX), s.snap.counters.ranking, spawnDraw, codeDraw, speedDraw)
  }

  /**
   * The once-per-frame rules keep the round invariant against the id counter
   * after them, leave the score alone, add exactly the one url they spawn,
   * and change no ranking while the robot is dead.
   */
  lemma AfterKeeps(s: RoundState, previousRanking: real, spawnDraw: real, codeDraw: real, speedDraw: real)
    requires TickSound(s.snap, s.next)
    ensures var t := AfterOf(s, previousRanking, spawnDraw, codeDraw, speedDraw);
      && TickSound(t.snap, t.next)
      && t.snap.counters.score == s.snap.counters.score
      && (t.next == s.next || t.next == s.next + 1)
      && |t.snap.urls| == |s.snap.urls| + t.next - s.next
      && (s.dead ==> t.snap.counters.ranking == s.snap.counters.ranking)
  {
    var t := AfterOf(s, previousRanking, spawnDraw, codeDraw, speedDraw);
    var u := s.snap.urls;
    if t.next == s.next + 1 {
      assert t.snap.urls == u + [NewUrl(s.next, s.hooks, s.dead, spawnDraw, codeDraw, speedDraw)];
      assert forall k :: 0 <= k < |u| ==> t.snap.urls[k] == u[k];
    }
  }

  /**
   * A frame keeps the round invariant against the id counter after it,
   * never lowers the score, adds at most the one url it spawns, and while
   * the robot is dead changes neither the ranking nor the score.
   */
  lemma FrameKeeps(geo: Oracles, polygons: seq<seq<Vec>>, width: real, s: RoundState,
                   currentTime: real, mouseX: real, spawnDraw: real, codeDraw: real, speedDraw: real)
    requires TickSound(s.snap, s.next)
    ensures var t := FrameOf(geo, polygons, width, s, currentTime, mouseX, spawnDraw, codeDraw, speedDraw);
      && TickSound(t.snap, t.next)
      && t.snap.counters.score >= s.snap.counters.score
      && (t.next == s.next || t.next == s.next + 1)
      && |t.snap.urls| <= |s.snap.urls| + t.next - s.next
      && t.hooks == s.hooks && (s.dead ==> t.dead)
      && (s.dead ==> t.snap.counters.ranking == s.snap.counters.ranking && t.snap.counters.score == s.snap.counters.score)
  {
    var ticked := TickedOf(geo, polygons, width, s, currentTime, mouseX);
    TicksKeep(geo, s.snap, polygons, width, s.dead, mouseX, s.clocks.currentStep, ticked.clocks.currentStep - s.clocks.currentStep, s.next);
    AfterKeeps(ticked, s.snap.counters.ranking, spawnDraw, codeDraw, speedDraw);
  }

  /** The ticks of a frame are its clock update followed by the ticks as far as the clock's target step. */
  lemma TickedSplit(geo: Oracles, polygons: seq<seq<Vec>>, width: real, s: RoundState, r: RoundState, m: RoundState,
                    currentTime: real, mouseX: real)
    requires var f := Clock.Advance(currentTime, s.clocks.previousTime, s.clocks.gameTimeGap);
      r == s.(clocks := s.clocks.(gameTimeGap := f.carried, previousTime := currentTime))
    requires var f := Clock.Advance(currentTime, s.clocks.previousTime, s.clocks.gameTimeGap);
      var target := s.clocks.currentStep + f.stepsToRun;
      m.clocks.currentStep == if target > s.clocks.currentStep then target else s.clocks.currentStep
    requires m == r.(snap := Ticks(geo, r.snap, polygons, width, r.dead, mouseX, r.clocks.currentStep, m.clocks.currentStep - r.clocks.currentStep),
                     clocks := r.clocks.(currentStep := m.clocks.currentStep))
    ensures m == TickedOf(geo, polygons, width, s, currentTime, mouseX)
  {
  }

  class Game {
    const geo: Oracles
    const robot: Robot
    /** The process-wide `Url.nextId`. */
    const ids: IdCounter
    /** The rule hooks: the round's own, or the tutorial's. */
    var hooks: Hooks.Hooks
    /** `state.urls` in insertion order, each url as its current value. */
    var urls: seq<UrlView>
    var currentStep: int
    var score: int
    var combo: int
    var comboTime: Option<int>
    var multiplier: int
    var multiplierTime: Option<int>
    var nextRankingDeterioration: int
    var gameTimeGap: real
    var previousTime: real
    var nextSpawn: real
    var ranking: real
    var lastUrlDelete: Option<Deletion>
    /** Whether `initialize` has run. */
    var initialized: bool

    ghost function Counters(): Rules.Counters
      reads this
    {
      Rules.Counters(ranking, score, combo, comboTime, multiplier, multiplierTime)
    }

    ghost function Clocks(): Schedule
      reads this
    {
      Schedule(currentStep, nextSpawn, nextRankingDeterioration, gameTimeGap, previousTime, initialized)
    }

    /** What `tick()` reads and writes, as a value. */
    ghost function Snap(): Snapshot
      reads this, robot
    {
      Snapshot(Counters(), lastUrlDelete, urls, Motion(robot.position, robot.speed, robot.head, robot.transformed))
    }

    /** The whole round as a value. */
    ghost function State(): RoundState
      reads this, robot, ids
    {
      RoundState(Snap(), Clocks(), robot.dead, ids.next, hooks)
    }

    ghost predicate Valid()
      reads this, robot, ids
    {
      && robot.Valid()
      && Sound(Counters())
      && currentStep >= 0
      && IncreasingIds(urls)
      && IdsBelow(urls, ids.next)
    }

    /** `createGame()`, with the stored robot settings passed in. */
    constructor (geo: Oracles, hooks: Hooks.Hooks, ids: IdCounter, sw: real, ss: real, st: real, sh: real)
      requires 0.0 <= sw <= 1.0 && 0.0 <= ss <= 1.0 && 0.0 <= st <= 1.0 && 0.0 <= sh <= 1.0
      ensures Valid() && fresh(robot)
      ensures this.geo == geo && this.hooks == hooks && this.ids == ids
      ensures urls == [] && Counters() == Rules.Initial && lastUrlDelete == None
      ensures Clocks() == Schedule(0, 0.0, 0, 0.0, 0.0, false)
      ensures var d := CreateRobotDimensions(sw, ss, st, sh);
        robot.width == d.width && robot.height == d.height && robot.skew == d.skew && robot.thickness == d.thickness
      ensures robot.polygons == Layout(robot.width, robot.height, robot.skew, robot.thickness)
      ensures robot.position == Zero && robot.speed == Zero && robot.head == Zero && !robot.dead
    {
      var d := CreateRobotDimensions(sw, ss, st, sh);
      this.geo := geo;
      this.hooks := hooks;
      this.ids := ids;
      robot := new Robot(d.width, d.height, d.skew, d.thickness);
      urls := [];
      currentStep := 0;
      score := 0;
      combo := 0;
      comboTime := None;
      multiplier := 1;
      multiplierTime := None;
      nextRankingDeterioration := 0;
      gameTimeGap := 0.0;
      previousTime := 0.0;
      nextSpawn := 0.0;
      ranking := MAX_RANKING;
      lastUrlDelete := None;
      initialized := false;
    }

    /** `updateScore(newValue)` */
    method UpdateScore(newValue: int)
      modifies this`score
      ensures score == newValue
    {
      score := newValue;
    }

    /** `updateMultiplier(newValue)` */
    method UpdateMultiplier(newValue: int)
      modifies this`multiplier, this`multiplierTime
      ensures Counters() == Rules.UpdateMultiplier(old(Counters()), currentStep, newValue)
      ensures Clocks() == old(Clocks()) && urls == old(urls) && hooks == old(hooks) && lastUrlDelete == old(lastUrlDelete)
    {
      if Alive(multiplierTime, currentStep) && newValue <= multiplier {
        return;
      }
      multiplier := newValue;
      multiplierTime := Some(currentStep + MULTIPLIER_WINDOW);
    }

    /** `increaseCombo()` */
    method IncreaseCombo()
      modifies this`combo, this`comboTime, this`multiplier, this`multiplierTime
      ensures Counters() == Rules.IncreaseCombo(old(Counters()), currentStep)
      ensures Clocks() == old(Clocks()) && urls == old(urls) && hooks == old(hooks) && lastUrlDelete == old(lastUrlDelete)
    {
      combo := if Alive(comboTime, currentStep) then combo + 1 else 1;
      comboTime := Some(currentStep + COMBO_WINDOW);
      UpdateMultiplier(combo);
    }

    /** `game.initialize(currentTime)` */
    method Initialize(currentTime: real)
      requires Valid()
      modifies this`previousTime, this`nextSpawn, this`nextRankingDeterioration, robot`position,
               this`score, this`multiplier, this`multiplierTime, this`initialized
      ensures Valid()
      ensures Clocks() == old(Clocks()).(previousTime := currentTime,
                                         nextSpawn := old(currentStep) as real + FIRST_SPAWN,
                                         nextRankingDeterioration := old(currentStep) + DECAY_PERIOD,
                                         initialized := true)
      ensures Counters() == Rules.UpdateMultiplier(old(Counters()).(score := 0), currentStep, 1)
      ensures robot.position == Vec(WORLD_SIZE / 2.0, WORLD_SIZE * 0.83)
    {
      previousTime := currentTime;
      nextSpawn := currentStep as real + FIRST_SPAWN;
      nextRankingDeterioration := currentStep + DECAY_PERIOD;
      robot.position := Vec(WORLD_SIZE / 2.0, WORLD_SIZE * 0.83);
      UpdateScore(0);
      UpdateMultiplier(1);
      initialized := true;
    }

    /**
     * One pass of the url loop of `tick` on `url`: a search-engine hit, a
     * bottom exit, or one step of fall appended to the urls that stay.
     */
    method SweepOne(url: UrlView, kept: seq<UrlView>) returns (kept': seq<UrlView>)
      modifies this
      ensures Round(Counters(), lastUrlDelete, kept')
        == SweepStep(geo, Round(old(Counters()), old(lastUrlDelete), kept), url, robot.dead, currentStep)
      ensures Clocks() == old(Clocks()) && hooks == old(hooks) && urls == old(urls)
    {
      kept' := kept;
      if CollidesWithSearch(geo, url.position) {
        if !robot.dead {
          if url.code == 404 {
            ranking := ranking - NOT_FOUND_PENALTY;
          } else {
            ranking := Helpers.Min(MAX_RANKING, ranking + SEARCH_REWARD);
            UpdateScore(score + SCORE_UNIT * multiplier);
          }
        }
        lastUrlDelete := Some(Deletion(url, true));
      } else if url.position.y > WORLD_SIZE + URL_RADIUS {
        lastUrlDelete := Some(Deletion(url, false));
        if url.code == 404 && !robot.dead {
          IncreaseCombo();
        }
      } else {
        var moved := url.(position := Add(url.position, url.speed));
        moved := moved.(speed := moved.speed.(y := Helpers.Min(moved.speed.y + GRAVITY, TERMINAL_VELOCITY)));
        kept' := kept + [moved];
      }
    }

    /** The url loop of `tick`: search-engine hits, bottom exits and one step of fall. */
    method SweepUrls()
      requires Valid()
      modifies this
      ensures Valid()
      ensures Round(Counters(), lastUrlDelete, urls)
        == Sweep(geo, Round(old(Counters()), old(lastUrlDelete), []), old(urls), robot.dead, currentStep)
      ensures score >= old(score) && (robot.dead ==> Counters() == old(Counters()))
      ensures |urls| <= |old(urls)|
      ensures Clocks() == old(Clocks()) && hooks == old(hooks)
    {
      var all := urls;
      ghost var start := Round(Counters(), lastUrlDelete, []);
      var kept: seq<UrlView> := [];
      for i := 0 to |all|
        invariant Round(Counters(), lastUrlDelete, kept) == Sweep(geo, start, all[..i], robot.dead, currentStep)
        invariant Clocks() == old(Clocks()) && hooks == old(hooks) && urls == all
      {
        SweepPrefix(geo, start, all, i, robot.dead, currentStep);
        kept := SweepOne(all[i], kept);
      }
      assert all[..|all|] == all;
      SweepCounters(geo, start, all, robot.dead, currentStep);
      SweepSurvivors(geo, start, all, robot.dead, currentStep);
      SweepKeepsIds(geo, start.counters, start.last, all, robot.dead, currentStep, ids.next);
      urls := kept;
    }

    /** One pass of the inner loop: `url1.checkCollision(url2)` for `url1 = urls[i]`, `url2 = urls[j]`, if `url1.id < url2.id`. */
    method CollideStep(at: Pairs.PairStep, i: nat, j: nat)
      requires i < |urls| && j < |urls|
      modifies this`urls
      ensures urls == Pairs.Meet(at, old(urls), i, j)
    {
      if urls[i].id < urls[j].id {
        urls := at(urls, Pairs.Index(i, j));
      }
    }

    /** The inner loop over `url2` for `url1 = urls[i]`. */
    method CollideRow(at: Pairs.PairStep, i: nat)
      requires Pairs.OnlySpeeds(at) && i < |urls|
      modifies this`urls
      ensures urls == Pairs.RowPass(at, old(urls), i, |old(urls)|)
    {
      ghost var start := urls;
      for j := 0 to |urls|
        invariant urls == Pairs.RowPass(at, start, i, j)
      {
        Pairs.RowOnlySpeeds(at, start, i, j);
        CollideStep(at, i, j);
      }
    }

    /** Both loops over `url1` and `url2`. */
    method CollideAll(at: Pairs.PairStep)
      requires Pairs.OnlySpeeds(at)
      modifies this`urls
      ensures urls == Pairs.PairPass(at, old(urls))
    {
      ghost var start := urls;
      for i := 0 to |urls|
        invariant urls == Pairs.OuterPass(at, start, i)
      {
        Pairs.OuterOnlySpeeds(at, start, i);
        CollideRow(at, i);
      }
    }

    /** The url-against-url loops of `tick`, run while the robot is alive. */
    method CollideUrls()
      requires Valid()
      modifies this`urls
      ensures Valid()
      ensures urls == if robot.dead then old(urls) else Pairs.PairPass(Pairs.Resolve(geo), old(urls))
      ensures Counters() == old(Counters()) && Clocks() == old(Clocks())
      ensures hooks == old(hooks) && lastUrlDelete == old(lastUrlDelete)
    {
      if !robot.dead {
        ghost var V0 := urls;
        Pairs.ResolveOnlySpeeds(geo);
        CollideAll(Pairs.Resolve(geo));
        Pairs.PassOnlySpeeds(geo, V0);
        SpeedsKeepIds(V0, urls, ids.next);
      }
    }

    /** The robot-collision loop of `tick`: every url against the robot, in order. */
    method CollideRobot()
      requires Valid()
      modifies this`urls
      ensures Valid()
      ensures urls == RobotPass(geo, old(urls), robot.head, robot.transformed, robot.speed)
      ensures Counters() == old(Counters()) && Clocks() == old(Clocks())
      ensures hooks == old(hooks) && lastUrlDelete == old(lastUrlDelete)
    {
      ghost var V0 := urls;
      ghost var target := RobotPass(geo, V0, robot.head, robot.transformed, robot.speed);
      for k := 0 to |urls|
        invariant |urls| == |V0|
        invariant forall m :: 0 <= m < k ==> urls[m] == target[m]
        invariant forall m :: k <= m < |urls| ==> urls[m] == V0[m]
      {
        var url := urls[k];
        var contacts := ContactsAt(geo, robot.head, robot.transformed, url.position);
        urls := urls[k := url.(speed := Impulses(geo, url.speed, url.position, robot.speed, contacts))];
      }
    }

    /** `tick()`: the robot moves and steers, then the url loops run in order. */
    method Tick(mouseX: real)
      requires Valid()
      modifies this, robot
      ensures Valid() && robot.dead == old(robot.dead)
      ensures Snap() == TickOf(geo, old(Snap()), robot.polygons, robot.width, robot.dead, currentStep, mouseX)
      ensures Clocks() == old(Clocks()) && hooks == old(hooks)
    {
      ghost var moved := MoveOf(geo, old(Snap()).motion, robot.polygons, robot.width, mouseX);
      robot.position := Add(robot.position, robot.speed);
      robot.Step(mouseX, geo);
      assert Snap().motion == moved;
      SweepUrls();
      CollideUrls();
      CollideRobot();
    }

    /** The spawn of `animate` when it is due (lines 234-248): one new url at the top edge. */
    method Spawn(spawnDraw: real, codeDraw: real, speedDraw: real)
      requires Valid()
      modifies this`urls, this`nextSpawn, ids
      ensures Valid()
      ensures ids.next == old(ids.next) + 1
      ensures urls == old(urls) + [NewUrl(old(ids.next), hooks, robot.dead, spawnDraw, codeDraw, speedDraw)]
      ensures nextSpawn == Rescheduled(hooks, old(nextSpawn), robot.dead, currentStep)
      ensures Counters() == old(Counters()) && Clocks() == old(Clocks()).(nextSpawn := nextSpawn)
      ensures hooks == old(hooks) && lastUrlDelete == old(lastUrlDelete)
    {
      var spawnX := SpawnX(spawnDraw);
      var newUrl := new Url(ids);
      newUrl.position := newUrl.position.(x := spawnX);
      newUrl.position := newUrl.position.(y := -URL_RADIUS);
      newUrl.code := Hooks.SpawnCode(hooks, codeDraw);
      if robot.dead {
        newUrl.speed := newUrl.speed.(x := StormSpeed(speedDraw));
        nextSpawn := nextSpawn + STORM_PERIOD;
      } else {
        nextSpawn := Hooks.ScheduleNextSpawn(hooks, nextSpawn, currentStep);
      }
      urls := urls + [newUrl.View()];
    }

    /** `game.deteriorateRanking()` through the current hooks. */
    method DeteriorateRanking()
      requires Valid()
      modifies this`ranking
      ensures Valid()
      ensures ranking == Hooks.Deteriorate(hooks, old(ranking), currentStep)
      ensures Counters() == old(Counters()).(ranking := ranking) && Clocks() == old(Clocks())
      ensures urls == old(urls) && hooks == old(hooks) && lastUrlDelete == old(lastUrlDelete)
    {
      ranking := Hooks.Deteriorate(hooks, ranking, currentStep);
    }

    /** The tick loop of `animate`: `tick()` once per step up to `targetStep`. */
    method RunTicks(targetStep: int, mouseX: real)
      requires Valid() && initialized
      modifies this, robot
      ensures Valid() && initialized
      ensures currentStep == if targetStep > old(currentStep) then targetStep else old(currentStep)
      ensures robot.dead == old(robot.dead) && (old(robot.dead) ==> Counters() == old(Counters()))
      ensures score >= old(score) && |urls| <= |old(urls)| && hooks == old(hooks)
      ensures Clocks() == old(Clocks()).(currentStep := currentStep)
      ensures Snap() == Ticks(geo, old(Snap()), robot.polygons, robot.width, robot.dead, mouseX, old(currentStep), currentStep - old(currentStep))
    {
      while currentStep < targetStep
        invariant Valid() && initialized
        invariant old(currentStep) <= currentStep && (currentStep <= targetStep || currentStep == old(currentStep))
        invariant robot.dead == old(robot.dead) && (old(robot.dead) ==> Counters() == old(Counters()))
        invariant score >= old(score) && |urls| <= |old(urls)| && hooks == old(hooks)
        invariant Clocks() == old(Clocks()).(currentStep := currentStep)
        invariant Snap() == Ticks(geo, old(Snap()), robot.polygons, robot.width, robot.dead, mouseX, old(currentStep), currentStep - old(currentStep))
        decreases targetStep - currentStep
      {
        TickAndCount(mouseX, old(Snap()), old(currentStep));
      }
    }

    /** One pass of the tick loop: `tick()`, then the step counter moves on. */
    method TickAndCount(mouseX: real, ghost s: Snapshot, ghost start: int)
      requires Valid() && start <= currentStep
      requires Snap() == Ticks(geo, s, robot.polygons, robot.width, robot.dead, mouseX, start, currentStep - start)
      modifies this, robot
      ensures Valid() && currentStep == old(currentStep) + 1
      ensures Snap() == Ticks(geo, s, robot.polygons, robot.width, robot.dead, mouseX, start, currentStep - start)
      ensures robot.dead == old(robot.dead) && score >= old(score) && (robot.dead ==> Counters() == old(Counters()))
      ensures |urls| <= |old(urls)| && hooks == old(hooks)
      ensures Clocks() == old(Clocks()).(currentStep := currentStep)
    {
      ghost var before := Snap();
      Tick(mouseX);
      TickAdvance(geo, s, before, Snap(), robot.polygons, robot.width, robot.dead, mouseX, start, currentStep, ids.next);
      currentStep := currentStep + 1;
    }

    /**
     * `animate(currentTime)`: runs the ticks the elapsed time pays for, then
     * the once-per-frame spawn, decay, multiplier expiry and end test.
     * `ended` says whether this frame ended the round.
     */
    method Animate(currentTime: real, mouseX: real, spawnDraw: real, codeDraw: real, speedDraw: real) returns (ended: bool)
      requires Valid() && initialized
      modifies this, robot, ids
      ensures Valid() && initialized
      ensures ended <==> ranking != old(ranking) && ranking <= 0.0
      ensures ended ==> !old(robot.dead)
      ensures State() == FrameOf(geo, robot.polygons, robot.width, old(State()), currentTime, mouseX, spawnDraw, codeDraw, speedDraw)
    {
      ghost var start := State();
      var frame := Clock.Advance(currentTime, previousTime, gameTimeGap);
      gameTimeGap := frame.carried;
      previousTime := currentTime;
      ghost var resumed := State();
      var targetStep := currentStep + frame.stepsToRun;
      var previousRanking := ranking;
      RunTicks(targetStep, mouseX);
      ghost var ticked := State();
      TickedSplit(geo, robot.polygons, robot.width, start, resumed, ticked, currentTime, mouseX);
      ended := AfterTicks(previousRanking, spawnDraw, codeDraw, speedDraw);
    }

    /**
     * The once-per-frame rules of `animate` after its ticks: spawn, decay,
     * multiplier expiry, and the end of the round when the ranking changed
     * this frame (from `previousRanking`) and is no longer positive.
     */
    method AfterTicks(previousRanking: real, spawnDraw: real, codeDraw: real, speedDraw: real) returns (ended: bool)
      requires Valid()
      modifies this, robot, ids
      ensures Valid()
      ensures ended <==> ranking != previousRanking && ranking <= 0.0
      ensures State() == AfterOf(old(State()), previousRanking, spawnDraw, codeDraw, speedDraw)
    {
      SpawnIfDue(spawnDraw, codeDraw, speedDraw);
      DecayIfDue();
      ExpireMultiplier();
      ended := EndIfRuined(previousRanking);
    }

    /** The spawn of `animate`, once `nextSpawn` is behind the current step. */
    method SpawnIfDue(spawnDraw: real, codeDraw: real, speedDraw: real)
      requires Valid()
      modifies this`urls, this`nextSpawn, ids
      ensures Valid()
      ensures State() == SpawnOf(old(State()), spawnDraw, codeDraw, speedDraw)
    {
      if nextSpawn < currentStep as real {
        Spawn(spawnDraw, codeDraw, speedDraw);
      }
    }

    /** The ranking decay of `animate`: every `DECAY_PERIOD` steps while the robot is alive. */
    method DecayIfDue()
      requires Valid()
      modifies this`nextRankingDeterioration, this`ranking
      ensures Valid()
      ensures State() == DecayOf(old(State()))
    {
      if !robot.dead && nextRankingDeterioration < currentStep {
        nextRankingDeterioration := nextRankingDeterioration + DECAY_PERIOD;
        DeteriorateRanking();
      }
    }

    /** The multiplier expiry of `animate`. */
    method ExpireMultiplier()
      requires Valid()
      modifies this`multiplier, this`multiplierTime
      ensures Valid()
      ensures State() == ExpiryOf(old(State()))
    {
      if multiplier > 0 && Lapsed(multiplierTime, currentStep) {
        UpdateMultiplier(if Alive(comboTime, currentStep) then combo else 1);
      }
    }

    /** The end test of `animate`: a changed ranking that is no longer positive ends the round. */
    method EndIfRuined(previousRanking: real) returns (ended: bool)
      requires Valid()
      modifies this`nextSpawn, robot`dead
      ensures Valid()
      ensures ended <==> ranking != previousRanking && ranking <= 0.0
      ensures State() == EndOf(old(State()), previousRanking)
    {
      ended := false;
      if ranking != previousRanking {
        if ranking <= 0.0 {
          End();
          ended := true;
        }
      }
    }

    /** `game.end()`: the robot dies and the storm of urls starts at once. */
    method End()
      requires Valid()
      modifies this`nextSpawn, robot`dead
      ensures Valid()
      ensures robot.dead && nextSpawn == currentStep as real
      ensures Clocks() == old(Clocks()).(nextSpawn := currentStep as real)
      ensures Counters() == old(Counters()) && urls == old(urls) && hooks == old(hooks) && lastUrlDelete == old(lastUrlDelete)
      ensures robot.position == old(robot.position) && robot.speed == old(robot.speed)
      ensures robot.head == old(robot.head) && robot.transformed == old(robot.transformed)
    {
      robot.dead := true;
      nextSpawn := currentStep as real;
    }
  }
}
