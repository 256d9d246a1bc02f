/**
 * The tutorial session: a round whose rule hooks follow the current tutorial
 * step, a frame loop that halts on a step whose condition holds, and
 * `continueTutorial`, which moves to the next step and resumes the loop.
 */
module TutorialSession {
  import opened Wrappers
  import opened Consts
  import opened Urls
  import opened Geometry
  import opened Tutorial
  import Hooks
  import Rules
  import Robots
  import Vectorial
  import Game
  import Clock

  /** `5 * STEPS_PER_SECOND`: the spawn time the tutorial writes before `initialize`. */
  const TUTORIAL_FIRST_SPAWN: real := 5.0 * STEPS_PER_SECOND

  /** `startDelay`: the round starts one second after the first frame. */
  const START_DELAY: real := 1000.0

  /**
   * The `stepUrl` search of the url steps: the index of the first url in
   * `game.state.urls` with the given code below the top fifth of the world.
   */
  method FindShowing(urls: seq<UrlView>, code: int) returns (r: Option<nat>)
    ensures r == FirstShowing(urls, code)
  {
    var i := 0;
    while i < |urls|
      invariant 0 <= i <= |urls|
      invariant forall k :: 0 <= k < i ==> !Shows(urls[k], code)
    {
      if Shows(urls[i], code) {
        return Some(i);
      }
      i := i + 1;
    }
    return None;
  }

  class Session {
    const game: Game.Game
    /** The current step; `None` once the last step has been dismissed. */
    var step: Option<Step>
    /** The url the last successful url-step condition picked. */
    var stepUrl: Option<UrlView>
    /** How many times `continueTutorial` has run. */
    ghost var continued: nat

    ghost predicate Valid()
      reads this, game, game.robot, game.ids
    {
      && game.Valid()
      && game.initialized
      && game.hooks == Hooks.InTutorial(step)
      && step == After(Some(First), continued)
    }

    /**
     * The tutorial's `start`: a fresh round with the tutorial hooks, whose
     * first animation frame at `currentTime` writes the 5-second spawn time
     * and then initialises the round one second later.
     */
    constructor (geo: Oracles, ids: IdCounter, sw: real, ss: real, st: real, sh: real, currentTime: real)
      requires 0.0 <= sw <= 1.0 && 0.0 <= ss <= 1.0 && 0.0 <= st <= 1.0 && 0.0 <= sh <= 1.0
      modifies ids
      ensures Valid() && fresh(game)
      ensures step == Some(IntroStep) && stepUrl == None && continued == 0
      ensures game.geo == geo && game.ids == ids && ids.next == old(ids.next)
      ensures game.urls == [] && game.lastUrlDelete == None && !game.robot.dead
      ensures game.Counters() == Rules.UpdateMultiplier(Rules.Initial.(score := 0), 0, 1)
      ensures game.Clocks() == Game.Schedule(0, Game.FIRST_SPAWN, Game.DECAY_PERIOD, 0.0, currentTime + START_DELAY, true)
      ensures var d := Robots.CreateRobotDimensions(sw, ss, st, sh);
        game.robot.width == d.width && game.robot.height == d.height && game.robot.skew == d.skew && game.robot.thickness == d.thickness
      ensures game.robot.position == Vectorial.Vec(WORLD_SIZE / 2.0, WORLD_SIZE * 0.83) && game.robot.speed == Vectorial.Zero
    {
      var g := new Game.Game(geo, Hooks.InTutorial(Some(IntroStep)), ids, sw, ss, st, sh);
      g.nextSpawn := TUTORIAL_FIRST_SPAWN;
      g.Initialize(currentTime + START_DELAY);
      game := g;
      step := Some(IntroStep);
      stepUrl := None;
      continued := 0;
    }

    /**
     * `step.condition()` for the current step. The two url steps run the
     * `stepUrl` search and remember the url they found.
     */
    method CheckCondition() returns (holds: bool)
      requires step.Some?
      modifies this`stepUrl
      ensures holds <==> Condition(step.value, game.urls, game.lastUrlDelete, game.multiplier)
      ensures step.value == Url200Step && holds ==> stepUrl == Some(game.urls[FirstShowing(game.urls, 200).value])
      ensures step.value == Url404Step && holds ==> stepUrl == Some(game.urls[FirstShowing(game.urls, 404).value])
      ensures !(step.value in {Url200Step, Url404Step} && holds) ==> stepUrl == old(stepUrl)
    {
      match step.value {
        case Url200Step =>
          var found := FindShowing(game.urls, 200);
          holds := found.Some?;
          if holds {
            stepUrl := Some(game.urls[found.value]);
          }
        case Url404Step =>
          var found := FindShowing(game.urls, 404);
          holds := found.Some?;
          if holds {
            stepUrl := Some(game.urls[found.value]);
          }
        case Url200OnSearchEngineStep =>
          holds := game.lastUrlDelete.Some? && game.lastUrlDelete.value.fellOnSearch;
        case Url404ThrownStep =>
          holds := game.lastUrlDelete.Some? && game.lastUrlDelete.value.url.code == 404
                   && !game.lastUrlDelete.value.fellOnSearch;
        case ComboStep =>
          holds := game.multiplier >= 2;
        case _ =>
          holds := true;
      }
    }

    /**
     * The tutorial's `game.loop`: animate one frame, then either keep the
     * step and request the next frame (no step, or its condition is false),
     * or show the step's message and stop requesting frames until the
     * player dismisses it. `over` and `paused` are the round's flags, set by
     * timers and dialogs outside this model.
     */
    method Loop(currentTime: real, mouseX: real, spawnDraw: real, codeDraw: real, speedDraw: real,
                over: bool, paused: bool)
      returns (showsMessage: bool, requestsFrame: bool)
      requires Valid()
      modifies this`stepUrl, game, game.robot, game.ids
      ensures Valid()
      ensures step == old(step) && continued == old(continued)
      ensures showsMessage <==> step.Some? && Condition(step.value, game.urls, game.lastUrlDelete, game.multiplier)
      ensures requestsFrame <==> !showsMessage && !over && !paused
      ensures showsMessage && step.value == Url200Step ==> stepUrl == Some(game.urls[FirstShowing(game.urls, 200).value])
      ensures showsMessage && step.value == Url404Step ==> stepUrl == Some(game.urls[FirstShowing(game.urls, 404).value])
      ensures !(showsMessage && step.value in {Url200Step, Url404Step}) ==> stepUrl == old(stepUrl)
      ensures game.State() == Game.FrameOf(game.geo, game.robot.polygons, game.robot.width, old(game.State()),
                                           currentTime, mouseX, spawnDraw, codeDraw, speedDraw)
    {
      var _ := game.Animate(currentTime, mouseX, spawnDraw, codeDraw, speedDraw);
      if step.None? {
        showsMessage := false;
      } else {
        showsMessage := CheckCondition();
      }
      requestsFrame := !showsMessage && !over && !paused;
    }

    /**
     * `continueTutorial`: move to the next step (the rule hooks follow it),
     * then `resumeLoop`, whose frame at `currentTime` restarts the clock
     * there and runs the loop. Only a shown step can be dismissed.
     */
    method Continue(currentTime: real, mouseX: real, spawnDraw: real, codeDraw: real, speedDraw: real,
                    over: bool)
      returns (showsMessage: bool, requestsFrame: bool)
      requires Valid() && step.Some?
      modifies this, game, game.robot, game.ids
      ensures Valid()
      ensures step == Next(old(step).value) && continued == old(continued) + 1
      ensures game.hooks == Hooks.InTutorial(step)
      ensures showsMessage <==> step.Some? && Condition(step.value, game.urls, game.lastUrlDelete, game.multiplier)
      ensures requestsFrame <==> !showsMessage && !over
      ensures showsMessage && step.value == Url200Step ==> stepUrl == Some(game.urls[FirstShowing(game.urls, 200).value])
      ensures showsMessage && step.value == Url404Step ==> stepUrl == Some(game.urls[FirstShowing(game.urls, 404).value])
      ensures !(showsMessage && step.value in {Url200Step, Url404Step}) ==> stepUrl == old(stepUrl)
      ensures var resumed := old(game.State()).(clocks := old(game.Clocks()).(previousTime := currentTime),
                                                hooks := Hooks.InTutorial(step));
        game.State() == Game.FrameOf(game.geo, game.robot.polygons, game.robot.width, resumed,
                                     currentTime, mouseX, spawnDraw, codeDraw, speedDraw)
    {
      AfterSplit(Some(First), continued);
      step := Next(step.value);
      continued := continued + 1;
      game.hooks := Hooks.InTutorial(step);
      game.previousTime := currentTime;
      showsMessage, requestsFrame := Loop(currentTime, mouseX, spawnDraw, codeDraw, speedDraw, over, false);
    }
  }
}
