/**
 * The tutorial: a fixed chain of eight steps, the condition that makes each
 * step show its message, and the rule hooks the tutorial puts in place of the
 * round's defaults while it runs. `None` is the `null` step after the last one.
 */
module Tutorial {
  import opened Wrappers
  import opened Consts
  import opened Helpers
  import opened Urls
  import Rules

  datatype Step =
    | IntroStep
    | RobotStep
    | Url200Step
    | Url200OnSearchEngineStep
    | Url404Step
    | Url404ThrownStep
    | ComboStep
    | EndStep

  /** Each step's `next()`. */
  function Next(s: Step): Option<Step> {
    match s
    case IntroStep => Some(RobotStep)
    case RobotStep => Some(Url200Step)
    case Url200Step => Some(Url200OnSearchEngineStep)
    case Url200OnSearchEngineStep => Some(Url404Step)
    case Url404Step => Some(Url404ThrownStep)
    case Url404ThrownStep => Some(ComboStep)
    case ComboStep => Some(EndStep)
    case EndStep => None
  }

  const First: Step := IntroStep

  /** The steps in the order the tutorial shows them. */
  const Chain: seq<Step> := [IntroStep, RobotStep, Url200Step, Url200OnSearchEngineStep,
                             Url404Step, Url404ThrownStep, ComboStep, EndStep]

  /** The step reached from `s` after `n` calls of `continueTutorial`. */
  function After(s: Option<Step>, n: nat): Option<Step>
    decreases n
  {
    if n == 0 || s.None? then s else After(Next(s.value), n - 1)
  }

  /** Where a step stands in the chain. */
  function Position(s: Step): (k: nat)
    ensures k < |Chain| && Chain[k] == s
  {
    match s
    case IntroStep => 0
    case RobotStep => 1
    case Url200Step => 2
    case Url200OnSearchEngineStep => 3
    case Url404Step => 4
    case Url404ThrownStep => 5
    case ComboStep => 6
    case EndStep => 7
  }

  /** `next` moves exactly one place along the chain, and only the last step leads to `null`. */
  lemma NextAdvancesByOne(s: Step)
    ensures Next(s).Some? <==> Position(s) < |Chain| - 1
    ensures Next(s).Some? ==> Position(Next(s).value) == Position(s) + 1
  {
  }

  /** Starting from `introStep`, `k` continues reach the k-th step of the chain; the eighth reaches `null`. */
  lemma {:induction false} ChainFromStart(k: nat)
    ensures k < |Chain| ==> After(Some(First), k) == Some(Chain[k])
    ensures k >= |Chain| ==> After(Some(First), k) == None
  {
    if k > 0 {
      ChainFromStart(k - 1);
      ChainStep(k - 1);
      AfterSplit(Some(First), k - 1);
    }
  }

  lemma {:induction false} ChainStep(k: nat)
    ensures k < |Chain| - 1 ==> Next(Chain[k]) == Some(Chain[k + 1])
    ensures k == |Chain| - 1 ==> Next(Chain[k]) == None
  {
  }

  lemma {:induction false} AfterSplit(s: Option<Step>, n: nat)
    ensures After(s, n + 1) == if After(s, n).None? then None else Next(After(s, n).value)
    decreases n
  {
    if n > 0 && s.Some? {
      AfterSplit(Next(s.value), n - 1);
    }
  }

  // The tutorial's rule hooks (Tutorial.ts lines 188-214).

  /** The tutorial's `spawnUrlCode`, with `Math.random()` passed in as `draw`. */
  function SpawnCode(step: Option<Step>, draw: real): (code: int)
    ensures step == Some(Url200Step) || step == Some(Url200OnSearchEngineStep) ==> code == 200
    ensures step.Some? && Position(step.value) >= 4 ==> code == 404
    ensures step.None? || step == Some(IntroStep) || step == Some(RobotStep) ==>
      code == Rules.DefaultSpawnCode(draw)
  {
    if step == Some(Url200Step) || step == Some(Url200OnSearchEngineStep) then 200
    else if step == Some(Url404Step) || step == Some(Url404ThrownStep) || step == Some(ComboStep) || step == Some(EndStep) then 404
    else Rules.DefaultSpawnCode(draw)
  }

  const RANKING_FLOOR: real := 20.0

  /** The tutorial's `deteriorateRanking`: the ranking after one decay. */
  function Decay(step: Option<Step>, ranking: real): (r: real)
    ensures step.Some? ==> r >= RANKING_FLOOR && (ranking < RANKING_FLOOR ==> r == RANKING_FLOOR)
    ensures step.Some? && ranking >= RANKING_FLOOR + 1.0 ==> r == ranking - 1.0
    ensures step.Some? && ranking < RANKING_FLOOR + 1.0 ==> r == RANKING_FLOOR
    ensures step.None? ==> r == ranking - 5.0
    ensures ranking <= Rules.MAX_RANKING ==> r <= Rules.MAX_RANKING
  {
    if step.Some? then Max(ranking - 1.0, RANKING_FLOOR) else ranking - 5.0
  }

  /** What the tutorial's `scheduleNextSpawn` adds to `nextSpawn`. */
  function SpawnInterval(step: Option<Step>): (i: real)
    ensures step == Some(ComboStep) || step == Some(EndStep) ==> i == 1.0 * STEPS_PER_SECOND
    ensures step != Some(ComboStep) && step != Some(EndStep) ==> i == 5.0 * STEPS_PER_SECOND
  {
    if step == Some(ComboStep) || step == Some(EndStep) then 1.0 * STEPS_PER_SECOND else 5.0 * STEPS_PER_SECOND
  }

  // Step conditions (Tutorial.ts lines 17, 30, 44-51, 65, 81-88, 101, 114, 126).

  /** A live url with the given code below the top fifth of the world. */
  predicate Shows(u: UrlView, code: int) {
    u.code == code && u.position.y > WORLD_SIZE * 0.2
  }

  /** Index of the first url in iteration order that `Shows` the code: the url that becomes `stepUrl`. */
  function FirstShowing(urls: seq<UrlView>, code: int): (r: Option<nat>)
    ensures r.Some? ==>
              && r.value < |urls| && Shows(urls[r.value], code)
              && forall k :: 0 <= k < r.value ==> !Shows(urls[k], code)
    ensures r.None? <==> forall k :: 0 <= k < |urls| ==> !Shows(urls[k], code)
    decreases |urls|
  {
    if urls == [] then None
    else if Shows(urls[0], code) then Some(0)
    else
      var rest := FirstShowing(urls[1..], code);
      if rest.None? then None else Some(rest.value + 1)
  }

  /** `step.condition()` given the state it reads. */
  predicate Condition(step: Step, urls: seq<UrlView>, last: Option<Deletion>, multiplier: int) {
    match step
    case IntroStep => true
    case RobotStep => true
    case Url200Step => FirstShowing(urls, 200).Some?
    case Url200OnSearchEngineStep => last.Some? && last.value.fellOnSearch
    case Url404Step => FirstShowing(urls, 404).Some?
    case Url404ThrownStep => last.Some? && last.value.url.code == 404 && !last.value.fellOnSearch
    case ComboStep => multiplier >= 2
    case EndStep => true
  }

  /** The url steps hold exactly when some live url shows the step's code. */
  lemma UrlConditions(urls: seq<UrlView>, last: Option<Deletion>, multiplier: int)
    ensures Condition(Url200Step, urls, last, multiplier) <==> exists k :: 0 <= k < |urls| && Shows(urls[k], 200)
    ensures Condition(Url404Step, urls, last, multiplier) <==> exists k :: 0 <= k < |urls| && Shows(urls[k], 404)
  {
  }
}
