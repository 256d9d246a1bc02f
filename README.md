# Robots.txt — a verified model of the round engine

Robots.txt is a small browser game. Urls fall from the top of a square world
that is 1000 units wide. A robot that the player steers with the pointer
pushes them about. A url with code 200 that lands on the search engine at the
bottom raises the site's ranking and the score. A 404 that lands there lowers
the ranking. A 404 pushed out through the bottom edge starts or extends a
combo, and a combo raises the score multiplier. The ranking also decays over
time. The round ends the first time a frame leaves it at zero or below. The
robot then dies and a storm of urls follows.

This project models that engine in Dafny and proves what it promises.

- **Fixed-step clock.** `animate` turns wall-clock time into whole 1/240 s steps and carries the remainder.
- **One step, `tick`.** The robot moves and steers. Then each url lands, leaves or falls. Then each pair of urls is resolved once, and every url meets the robot.
- **Once-per-frame rules.** Spawn, ranking decay, multiplier expiry and the end test.
- **Url and robot impulses.**
- **The tutorial.** Its chain of eight steps and the conditions that open each step's message. Its loop and `continueTutorial`. The rule hooks it installs in place of the round's own.

## Layout

| module (file) | contents |
|---|---|
| `Consts` (consts.dfy) | unit constants |
| `Helpers`, `Vectorial` | scalar helpers and 2-D vector values |
| `Geometry` | shapes, the search-engine polygon, the uninterpreted intersection, transform and projection functions |
| `Clock` | the frame clock |
| `Rules` | counters (ranking, score, combo, multiplier) and the round's default hooks |
| `Tutorial`, `Hooks` | the step chain, conditions and tutorial hooks; the `Normal` or `InTutorial(step)` hook variant |
| `Urls` | the id counter, the `Url` class, and the url-against-url impulse |
| `Robots` | layout, control law, robot impulses, and the `Robot` class |
| `Lifecycle` | the url sweep of one tick, as a function |
| `Pairs` | the pairwise collision pass, as a function |
| `Game` | the `Game` class: `createGame`'s state and its operations |
| `TutorialSession` | the tutorial's `start`, loop and `continueTutorial` |

### How the state is modelled

- **`Game` is a class.** Its fields are the closure variables and the `state` fields of `createGame`. Its methods change them step by step, as the source does.
- **Specification functions.** Each loop is proved against a pure function, and the properties are lemmas about those functions.
  - The url loop of `tick` is `Lifecycle.Sweep`, the pair loops are `Pairs.PairPass`, and the robot loop is `Robots.RobotPass`.
  - The tick loop of `animate` is `Game.Ticks`: n applications of `Game.TickOf`, the whole state change of one `tick()`, to a snapshot of the round.
  - The counters follow `Rules.*` and the frame clock follows `Clock.Advance`.
  - A whole `animate` frame is `Game.FrameOf` on `Game.RoundState`, the whole round as a value. It is `Game.TickedOf` (the clock and the ticks) followed by `Game.AfterOf`, which is `Game.SpawnOf`, `Game.DecayOf`, `Game.ExpiryOf` and `Game.EndOf` in the source's order. Each of these specifies the method of the same step.
- **The pair step.** `Pairs.Resolve(geo)` is `url1.checkCollision(url2)` as a value of type `Pairs.PairStep`. The pair-pass lemmas hold for any step that changes speeds only (`Pairs.OnlySpeeds`). "Speeds only" means the views are equal once their speeds are cleared (`Pairs.Unsped`).
- **`state.urls`** is a sequence of url values (`Urls.UrlView`) in insertion order.
- **Parameters.** Random draws, the time stamp and the pointer fraction are passed in.
- **Unseen modules.** The intersection tests, the polygon transform and the vector projection live in `Vectorial.ts`, `Geometry.ts` and `RenderablePolygon.ts`. None of these is part of this model. They are fields of one `Geometry.Oracles` value: uninterpreted, total and deterministic.
- **`Matrix.ts` is not part of this model.** `Matrix.multiply(points1, Matrix.setToScale(Matrix.identity(3), -1, 1))` (Robot.ts:35) is read as the mirror x ↦ −x of each point (`Robots.Mirror`).
- **`Helpers.ts` is not part of this model.** `between` is modelled as a clamp and `sign` as -1, 0 or 1.
- **Vector operations.** In the source they mutate their receiver and return it. Here they are values, rebound in the same order as the source's calls.
- **Undefined closure variables.** `createGame` leaves five closure variables `undefined` (Game.ts:200-204).
  - `comboTime` and `multiplierTime` are `Option<int>`. A comparison with `None` is false, as a comparison with `undefined` is.
  - `score`, `combo` and `nextRankingDeterioration` start at 0 here. This is harmless. `initialize` sets the score and the first decay before any tick. `combo` is read only while `comboTime` is alive, and `increaseCombo` sets `combo` before it opens that window.
- **`initialized`** is a flag of the model only. `Game.Game.Initialize` sets it. `Animate` and `RunTicks` require it, because the source always calls `initialize` before the first frame.

### Where the code differs from its obvious reading

The model follows the code in each case.

- **Url impulse.** The name `setAsScaledBy(1.1)` reads as one scaling by 1.1 shared by both urls. It scales the projection in place, so the second call scales it again, and a url-url collision is not symmetric. The first url gains 1.1 p and the second loses 1.21 p, and the sum of the speeds is not conserved (`Urls.ImpulseNotConserved`).
- **Stop point.** The robot's projected stop point is not the kinematic stopping distance v|v|/2A from its position. It is three times that (`Robots.StopPointIsThreeStoppingDistances`).
- **Frame cap.** A fixed-step clock usually replays the whole time it fell behind. Here the 500 ms cap is the only catch-up limit, so a frame runs at most 120 steps and the rest of a stall is dropped.
- **Tutorial spawn time.** The tutorial writes `nextSpawn := 1200`, five seconds, before `initialize`. That call overwrites it with `currentStep + 480`, so the first tutorial url comes after two seconds.

## Model

| member | source | states |
|---|---|---|
| Consts.StepRate | src/Consts.ts:1-2 | 240 steps per second are 0.24 steps per millisecond |
| Consts.SpeedUnits | src/Consts.ts:3-4 | one speed unit per step is one world unit per second; the acceleration unit is 1/240² |
| Consts.FallConstants | src/Consts.ts:5-6 | gravity is 1000/240², terminal velocity is 5000/240; both positive; 1200 gravity steps make terminal velocity |
| Consts.Sizes | src/Consts.ts:7-8 | the world is 1000 wide and a url's radius is 20 |
| Consts.FallFromRest | src/Game.ts:180 | from rest, n gravity steps give speed n·GRAVITY until step 1200; after that the speed is the cap |
| Helpers.Min | src/Game.ts:158 | `Math.min` is the smaller operand |
| Helpers.Max | src/Tutorial.ts:202 | `Math.max` is the larger operand |
| Helpers.Abs | src/Robot.ts:112 | `Math.abs` is non-negative and is ±its argument |
| Helpers.Clamp | src/Game.ts:304 | `between(lo, hi, x)` lies in [lo, hi]; it is x inside, lo below and hi above |
| Helpers.Sign | src/Robot.ts:103 | `sign(x)` is -1, 0 or 1; it is 0 exactly at 0 and 1 exactly above 0; sign(x)·x = \|x\| |
| Helpers.Trunc | src/Game.ts:224 | `x \| 0` truncates toward zero: it lies within 1 of x, on the side of 0 |
| Helpers.ClampMonotone | src/Game.ts:304 | clamping keeps order |
| Vectorial.ScaleTwice | src/Url.ts:38-39 | scaling by k then by l is scaling by k·l |
| Geometry.SearchPolygon | src/Game.ts:73-82 | the search engine is the rectangle from x = 100 to x = 900 along the bottom edge, 80 units high |
| Clock.Advance | src/Game.ts:223-225 | the time gap is the smaller of 500 ms and the elapsed time plus the carry; at most 120 steps run; steps/0.24 plus the carried gap is exactly the time gap; the carry is less than one step's length; steps and carry have the sign of the gap |
| Clock.TicksRun | src/Game.ts:228-232 | the counting loop runs `stepsTorun` ticks when that is positive, else none |
| Clock.CatchUpCapped | src/Game.ts:223-225 | however long the stall, a frame runs exactly 120 steps and carries nothing |
| Clock.ShortFrame | src/Game.ts:223-225 | a 3 ms frame runs no step and carries all 3 ms |
| Clock.FirstFrameAfterDelay | src/Game.ts:91-94 | a first frame within the second after `initialize(t + 1000)` runs no tick and carries a non-positive gap |
| Clock.FirstFrameStepsBack | src/Game.ts:224-228 | when that frame comes more than one step's length before the end of the delay, `stepsTorun` is negative, so the tick loop's target is behind the current step |
| Rules.Windows | src/Game.ts:133-143 | the combo window is 3 s of steps and the multiplier window is 10 s |
| Rules.InitialSound | src/Game.ts:206-218 | the counters of a new round are sound: ranking 100, multiplier 1, and 0 for the score and combo that `createGame` leaves undefined |
| Rules.UpdateMultiplier | src/Game.ts:137-146 | a no-op exactly when the window is alive and the new value is not larger; otherwise it sets the multiplier and opens a 2400-step window |
| Rules.MultiplierNeverDropsInWindow | src/Game.ts:138-140 | inside a live window the multiplier becomes the larger of old and offered |
| Rules.IncreaseCombo | src/Game.ts:131-135 | combo + 1 while the combo is alive, else 1; the window is reopened for 720 steps; afterwards multiplier ≥ combo; keeps the counters sound |
| Rules.ExpireMultiplier | src/Game.ts:255-257 | a lapsed multiplier resets to the live combo, else to 1, and reopens its window; otherwise nothing changes |
| Rules.Landed | src/Game.ts:153-161 | while alive, a 404 costs 3 ranking, and any other code adds min(100, ranking + 10) and adds 10·multiplier to the score; dead, nothing changes; the score never drops |
| Rules.Diverted | src/Game.ts:168-174 | a 404 leaving the world while alive increases the combo; anything else changes nothing |
| Rules.TwoDivertsMakeACombo | src/Game.ts:131-146 | a first divert gives combo 1 with multiplier 1; a second within the window gives combo 2 and multiplier 2 |
| Rules.DefaultSpawnCode | src/Game.ts:301 | the code is 404 exactly when the draw exceeds 0.6, else 200 |
| Rules.DecayAmount | src/Game.ts:303-306 | each decay takes between 0.5 and 2.5; 0.5 at the start and 2.5 after 120 s |
| Rules.SpawnInterval | src/Game.ts:308-311 | the interval lies in [120, 480]; it is 480 at the start and 120 after 60 s |
| Rules.Ramps | src/Game.ts:303-311 | later spawn intervals are no longer, and later decays are no milder |
| Hooks.SpawnCode | src/Tutorial.ts:188-198 | every hook spawns a 200 or a 404 |
| Hooks.Deteriorate | src/Tutorial.ts:200-206 | no hook lifts the ranking above 100; the round's own decay takes 0.5 to 2.5; during a tutorial step the ranking stays ≥ 20 |
| Hooks.ScheduleNextSpawn | src/Tutorial.ts:208-214 | the round adds 120 to 480 steps and the tutorial adds 240 or 1200; the next spawn always moves later |
| Tutorial.Position | src/Tutorial.ts:16-135 | each step has its place in the chain of eight |
| Tutorial.NextAdvancesByOne | src/Tutorial.ts:26-134 | `next()` moves exactly one place along the chain; only the last step leads to null |
| Tutorial.ChainFromStart | src/Tutorial.ts:137-141 | from `introStep`, k continues reach the k-th step; eight or more reach null |
| Tutorial.ChainStep | src/Tutorial.ts:26-134 | each step of the chain leads to the next one, and the last to null |
| Tutorial.AfterSplit | src/Tutorial.ts:140-141 | n + 1 continues are one more `next()` after n |
| Tutorial.SpawnCode | src/Tutorial.ts:188-198 | 200 in the two url200 steps; 404 from `url404Step` on; random in intro, robot and null |
| Tutorial.Decay | src/Tutorial.ts:200-206 | with a step, a ranking of 21 or more drops by 1 and any lower ranking becomes 20; with none it drops by 5; no result exceeds 100 from a ranking ≤ 100 |
| Tutorial.SpawnInterval | src/Tutorial.ts:208-214 | 240 in the combo and end steps, 1200 otherwise |
| Tutorial.FirstShowing | src/Tutorial.ts:44-51 | the first url in iteration order with the code below y = 200; none exactly when no url qualifies |
| Tutorial.UrlConditions | src/Tutorial.ts:81-88 | the url200 and url404 conditions hold exactly when some live url shows the code below y = 200 |
| Urls.IdCounter.constructor | src/Url.ts:7 | ids start at 1 |
| Urls.Url.constructor | src/Url.ts:7-21 | a new url takes the next id and moves the counter up by one; it has code 404 and is at rest at the origin |
| Urls.Url.Circle | src/Url.ts:15-20 | the circle has radius 20 and is centred on the url's current position, not a copy of it |
| Urls.Url.View | src/Url.ts:8-16 | a url's current id, code, position and speed as a value |
| Urls.Url.CheckCollision | src/Url.ts:28-41 | positions and codes are unchanged; the two new speeds are the pair impulse of the old urls |
| Urls.PairImpulse | src/Url.ts:28-41 | without a hit, or unless the second url approaches the first along the normal, both speeds are kept |
| Urls.ImpulseNotConserved | src/Url.ts:38-39 | the first url gains 1.1 p and the second loses 1.21 p, so their speed sum drops by 0.11 p |
| Robots.Layout | src/Robot.ts:28-50 | three body polygons of four points each |
| Robots.LayoutSymmetric | src/Robot.ts:28-44 | one side polygon mirrors the other, and the base mirrors itself end to end |
| Robots.TargetInWorld | src/Robot.ts:104 | a pointer in [0, 1] puts the target between width/2 and 1000 − width/2 |
| Robots.StopPointIsThreeStoppingDistances | src/Robot.ts:112-113 | the projected stop point is x + 3·v\|v\|/2A |
| Robots.ControlDelta | src/Robot.ts:103-121 | each step changes `speed.x` by +A, −A or 0, where A = 10·gravity |
| Robots.WrongDirection | src/Robot.ts:105-110 | moving away from the target, or at rest, the robot accelerates toward it; on the target it adds 0 |
| Robots.SameDirection | src/Robot.ts:112-120 | moving toward the target, the robot accelerates exactly when the stop point is short of the target, and brakes otherwise |
| Robots.RestsOnTarget | src/Robot.ts:103-110 | at rest on the target the robot stays at rest |
| Robots.Pushes | src/Robot.ts:124-134 | at most one push per contact |
| Robots.NoPushNoChange | src/Robot.ts:136-144 | with no push the url's speed is what it was |
| Robots.ContactsAt | src/Robot.ts:124-134 | the head is tested first, then each body polygon in order, against the url's circle |
| Robots.RobotPass | src/Game.ts:193-195 | every url gets the impulses of its own contacts; nothing else about it changes |
| Robots.CreateRobotDimensions | src/Game.ts:98-106 | for settings in [0, 1]: width 80 to 430, skew up to 40% of the width, thickness positive and below the height |
| Robots.Robot.constructor | src/Robot.ts:25-50 | the dimensions are stored, the polygons are laid out, and the robot is at rest at the origin and alive |
| Robots.Robot.Step | src/Robot.ts:96-122 | the head is at position + (0, 30); every polygon is transformed; position, `speed.y` and `dead` are unchanged; `speed.x` changes by the control law |
| Robots.Robot.Collide | src/Robot.ts:136-144 | the url's position and code are kept; its speed loses 1.1 of the projection exactly when it approaches the contact point |
| Robots.Robot.CheckCollision | src/Robot.ts:124-134 | up to four impulses in order, head first, each from the speed the previous one left; the robot never moves |
| Lifecycle.FateOf | src/Game.ts:153-168 | a search hit is tested first; otherwise y > 1020 leaves the world; otherwise the url falls |
| Lifecycle.Fall | src/Game.ts:179-180 | the url moves by its speed; the vertical speed becomes the smaller of speed + gravity and terminal velocity; the horizontal speed, id and code are kept |
| Lifecycle.FallForSpeed | src/Game.ts:179-180 | n steps of `Fall` give the vertical speed `Consts.FallSpeed` of n capped gravity steps and keep the horizontal speed |
| Lifecycle.SweepPrefix | src/Game.ts:152 | sweeping one more url is one more sweep step |
| Lifecycle.Falling | src/Game.ts:152-181 | a url is among the falling urls exactly when it is one of the urls and its fate is to fall; there are at most as many as urls |
| Lifecycle.SweepSurvivors | src/Game.ts:152-181 | the survivors are exactly the falling urls, each moved one step, in order; falling plus removed urls are all of them |
| Lifecycle.FallingKeepsOrder | src/Game.ts:152-181 | the falling urls keep increasing ids, and each is one of the urls |
| Lifecycle.SurvivorsCapped | src/Game.ts:179-180 | every survivor falls no faster than terminal velocity and keeps its horizontal speed |
| Lifecycle.SweepCounters | src/Game.ts:152-181 | the counters stay sound, the score never drops, and a dead robot changes no counter |
| Lifecycle.LastRemoved | src/Game.ts:163-170 | the last url the sweep removes, or none when every url falls |
| Lifecycle.SweepLast | src/Game.ts:163-170 | `lastUrlDelete` is the last removed url, with `fellOnSearch` exactly when it hit the search engine; with none removed it is kept |
| Lifecycle.SweepKeepsIds | src/Game.ts:163-169 | the survivors keep creation order and no new id appears |
| Pairs.Row | src/Game.ts:185-189 | the inner loop resolves only pairs with the outer url first |
| Pairs.Rows | src/Game.ts:184-190 | the outer loop's pairs index into the urls |
| Pairs.PairAt | src/Game.ts:186-188 | one `checkCollision` changes only the speeds of its two urls |
| Pairs.UnspedSame | src/Game.ts:187 | two view sequences agree once their speeds are cleared exactly when they have the same length and differ at most in speeds, url by url |
| Pairs.ResolveOnlySpeeds | src/Game.ts:187 | `checkCollision` changes speeds only |
| Pairs.ApplyOnlySpeeds | src/Game.ts:184-190 | resolving any pairs in turn with such a step changes speeds only |
| Pairs.RowOnlySpeeds | src/Game.ts:185-189 | the inner loop changes speeds only |
| Pairs.OuterOnlySpeeds | src/Game.ts:184-190 | the outer loop changes speeds only |
| Pairs.PassOnlySpeeds | src/Game.ts:183-191 | the pairwise pass keeps every url, its id, code and position; only speeds change |
| Pairs.RowHas | src/Game.ts:185-189 | the inner loop for url a resolves (a, b) exactly when b came earlier in its scan and a's id is smaller |
| Pairs.RowsHave | src/Game.ts:184-190 | the outer loop up to i resolves (a, b) exactly when a < i and a's id is smaller |
| Pairs.RowsStep | src/Game.ts:184-190 | one more outer turn adds exactly the pairs (i − 1, b) whose ids are ordered |
| Pairs.RowAscending | src/Game.ts:185-189 | the inner loop visits pairs in increasing order |
| Pairs.RowsAscending | src/Game.ts:184-190 | the outer loop visits pairs in increasing order |
| Pairs.RowsAscendingStep | src/Game.ts:184-190 | the row of one more outer turn follows the rows before it in visiting order |
| Pairs.EachPairOnce | src/Game.ts:184-190 | with distinct ids, each unordered pair is resolved exactly once, smaller id first; no url meets itself and no pair repeats |
| Pairs.ApplyOneMore | src/Game.ts:187 | resolving one more pair is one more `checkCollision` |
| Pairs.ApplySplit | src/Game.ts:184-190 | resolving ps and then qs is resolving ps + qs |
| Pairs.ApplyAfter | src/Game.ts:184-190 | resolving ps + qs is resolving qs on the views ps leaves |
| Pairs.RowByIds | src/Game.ts:186 | the pairs a row picks depend only on the ids, so speed changes cannot alter them |
| Pairs.MeetAppends | src/Game.ts:186-187 | one inner iteration on the views the earlier pairs left resolves one more pair exactly when the ids at the start are ordered |
| Pairs.RowStep | src/Game.ts:185-189 | one more inner iteration keeps the inner loop equal to resolving its row |
| Pairs.RowPassResolves | src/Game.ts:185-189 | although each iteration sees the speeds the one before left, the inner loop resolves exactly the pairs of its row, in order |
| Pairs.RowAfter | src/Game.ts:185-189 | the inner loop of an outer turn resolves the row chosen from the ids at the start |
| Pairs.OuterPassResolves | src/Game.ts:184-190 | the outer loop up to i resolves exactly the pairs of `Rows`, in order |
| Pairs.PairPassVisits | src/Game.ts:183-191 | the pairwise pass resolves exactly the pairs of `Visited`, chosen from the ids at the start, in visiting order |
| Game.SpawnX | src/Game.ts:235 | a draw in [0, 1) puts a new url between x = 100 and x = 900 |
| Game.StormSpeed | src/Game.ts:243 | a draw in [0, 1) gives a storm url a sideways speed in [−500, 500) units per second |
| Game.SpeedsKeepIds | src/Game.ts:183-191 | changing only speeds keeps creation order and the ids |
| Game.IterateLast | src/Game.ts:230-232 | the last of n + 1 iterated steps comes after the first n |
| Game.IterateNext | src/Game.ts:230-232 | one step at `start + n` after n iterated steps gives n + 1 |
| Game.TicksNext | src/Game.ts:230-232 | one `tick()` at step `step` after the ticks from `start` gives the ticks up to `step + 1` |
| Game.PassesKeepIds | src/Game.ts:183-195 | the pair pass and the robot pass keep creation order, the ids and the number of urls |
| Game.TickKeeps | src/Game.ts:148-196 | one tick keeps the counters sound and the ids in creation order, never lowers the score, adds no url, and with the robot dead changes no counter |
| Game.TicksKeep | src/Game.ts:228-232 | any number of ticks keeps the same invariant |
| Game.TickAdvance | src/Game.ts:228-232 | one more tick extends `Game.Ticks` by one and keeps the invariant |
| Game.AfterKeeps | src/Game.ts:234-264 | the once-per-frame rules keep the round invariant against the new id counter, keep the score, add exactly the url they spawn, and change no ranking while the robot is dead |
| Game.FrameKeeps | src/Game.ts:220-264 | a whole frame keeps the round invariant, never lowers the score, adds at most one url and one id, keeps the hooks, and while the robot is dead changes neither ranking nor score |
| Game.TickedSplit | src/Game.ts:222-232 | the clock update followed by the tick loop up to `targetStep` is `Game.TickedOf` |
| Game.Game.constructor | src/Game.ts:198-218 | a new round has no urls, ranking 100, multiplier 1, step 0, an uninitialized clock and a living robot; the score, combo and first decay `createGame` leaves undefined are 0, and both windows are closed; the robot has `createRobot`'s dimensions of the settings, the polygons laid out from them, and is at rest at the origin |
| Game.Game.UpdateScore | src/Game.ts:125-129 | the score becomes the new value |
| Game.Game.UpdateMultiplier | src/Game.ts:137-146 | the counters follow `Rules.UpdateMultiplier`; nothing else changes |
| Game.Game.IncreaseCombo | src/Game.ts:131-135 | the counters follow `Rules.IncreaseCombo`; nothing else changes |
| Game.Game.Initialize | src/Game.ts:270-279 | the clock starts; the first spawn is 480 steps and the first decay 48 steps away; the score is 0 and the multiplier is 1; the robot is at (500, 830) |
| Game.Game.SweepOne | src/Game.ts:153-180 | one url loop pass is one `SweepStep` on the counters, the last deletion and the kept urls |
| Game.Game.SweepUrls | src/Game.ts:152-181 | the url loop is the sweep of the old urls; the score never drops; a dead robot changes no counter; no url is added |
| Game.Game.CollideStep | src/Game.ts:186-188 | one inner iteration is `Pairs.Meet`: the pair is resolved exactly when `url1`'s id is the smaller |
| Game.Game.CollideRow | src/Game.ts:185-189 | the inner loop is `Pairs.RowPass`, which resolves the pairs of `Pairs.Row` in order (`Pairs.RowPassResolves`) |
| Game.Game.CollideAll | src/Game.ts:184-190 | the nested loops are `Pairs.PairPass`, which resolves exactly the pairs of `Pairs.Visited` in order (`Pairs.PairPassVisits`) |
| Game.Game.CollideUrls | src/Game.ts:183-191 | the pairwise pass runs only while the robot is alive; counters and clocks are kept |
| Game.Game.CollideRobot | src/Game.ts:193-195 | the robot loop is `Robots.RobotPass` |
| Game.Game.Tick | src/Game.ts:148-196 | the new state is `Game.TickOf` of the old one: the robot moves and steers; the urls are swept, paired while alive, and pushed by the robot; the clocks and hooks are kept |
| Game.Game.Spawn | src/Game.ts:234-248 | one url is appended with the next id, the hook's code and position (x, −20); while alive the hook schedules the next spawn; dead, the next spawn is 4.8 steps later and the url gets a storm speed |
| Game.Game.DeteriorateRanking | src/Game.ts:252 | the ranking follows the current hook; nothing else changes |
| Game.Game.RunTicks | src/Game.ts:228-232 | `currentStep` reaches the target, or stays where it is; the state is `Game.Ticks` of the old one for that many steps; the robot does not die, the score never drops and no url appears |
| Game.Game.TickAndCount | src/Game.ts:230-232 | one pass of the tick loop: the state moves by one `Game.TickOf` and `currentStep` by one |
| Game.Game.Animate | src/Game.ts:220-264 | the whole new round is `Game.FrameOf` of the old one: the clock advances by `Clock.TicksRun` of `Clock.Advance`, the ticks run, then the spawn when `nextSpawn` is behind, the hook's decay when due, `Rules.ExpireMultiplier`, and the end exactly when the ranking changed this frame and is ≤ 0; a round that was already over never ends again; `Game.FrameKeeps` gives the invariants |
| Game.Game.AfterTicks | src/Game.ts:234-264 | the whole new round is `Game.AfterOf` of the old one: spawn, decay, multiplier expiry and end test, in that order; it reports an end exactly when the ranking differs from the one before the ticks and is ≤ 0 |
| Game.Game.SpawnIfDue | src/Game.ts:234-248 | the whole new round is `Game.SpawnOf` of the old one: exactly when `nextSpawn` is strictly behind the current step, the url `Game.NewUrl` with the next id is appended, the id counter moves up and `nextSpawn` is rescheduled; otherwise nothing changes |
| Game.Game.DecayIfDue | src/Game.ts:250-253 | the whole new round is `Game.DecayOf` of the old one: while alive and due, the decay moves on 48 steps and the hook decays the ranking; otherwise nothing changes |
| Game.Game.ExpireMultiplier | src/Game.ts:255-257 | the whole new round is `Game.ExpiryOf` of the old one: the counters follow `Rules.ExpireMultiplier` and nothing else changes |
| Game.Game.EndIfRuined | src/Game.ts:259-264 | the round ends exactly when the ranking changed and is ≤ 0, and the whole new round is `Game.EndOf` of the old one: a dead robot and the next spawn now, or nothing changed |
| Game.Game.End | src/Game.ts:313-315 | the robot is dead and the next spawn is now; nothing else changes |
| TutorialSession.FindShowing | src/Tutorial.ts:81-88 | the search loop returns `Tutorial.FirstShowing` |
| TutorialSession.Session.constructor | src/Tutorial.ts:234-238 | a tutorial round at `introStep` with tutorial hooks and no urls; the counters are those of a new round after `initialize` (ranking 100, score 0, multiplier 1 with its window open); the 1200 written first becomes the 480 that `initialize` writes, the first decay is 48 steps away and the clock starts one second later with no carry; the robot is alive, at rest at (500, 830), with `createRobot`'s dimensions |
| TutorialSession.Session.CheckCondition | src/Tutorial.ts:16-135 | the result is the step's condition; the url steps keep the first qualifying url as `stepUrl` |
| TutorialSession.Session.Loop | src/Tutorial.ts:147-173 | the round first runs one `animate` frame, so its whole new state is `Game.FrameOf` of the old one; the step never changes; the message shows exactly when a step exists and its condition holds after that frame; frames are requested exactly when no message shows and the round is neither over nor paused; a url step whose message shows keeps the first qualifying url as `stepUrl`, and otherwise `stepUrl` is unchanged |
| TutorialSession.Session.Continue | src/Tutorial.ts:140-144 | the step moves one place along the chain and the hooks follow it; the loop restarts with the clock reset to now, so the round's new state is `Game.FrameOf` of the old one with those hooks and `previousTime` at the current time; for the new step, `stepUrl` follows the same rule as in the loop |

## Left out

- **Rendering, DOM and UI.** This covers `render`, `resize`, the `*Dom` updates, the popup markup and its focus overlay, `displayAbort` and `handleEscape`. They are canvas and document I/O.
- **Host scheduling.** `requestAnimationFrame` and `setTimeout` chains are left out. The `over` and `paused` flags those callbacks set are parameters of `TutorialSession.Session.Loop`.
- **`afterEnd`** is left out. It writes the high score and `playedTutorial` to local storage, which is not part of this model, and starts timers.
- **Robot settings.** They are read from local storage; here they are parameters of the constructors.
- **`Math.random`, the time stamp and the pointer fraction** are parameters. The raw mouse and touch handlers are not modelled. `Robots.TargetInWorld` requires the fraction to lie in [0, 1]. `mousemove` clamps it, but `touchmove` does not.
- **Arithmetic.** It is exact real arithmetic, not IEEE doubles. `| 0` is truncation toward zero, without the 32-bit wrap that only operands beyond ±2³¹ would show.
- **The robot's lean angle** (`Math.PI` times speed) only feeds the unseen polygon transform. The transform is given the robot's horizontal speed instead.
- **`checkCollision`'s contact point.** The source writes it into a scratch vector; here the intersection functions return it. The robot's static scratch vectors and a url's per-instance ones are not modelled.
- **`state.urls` is a sequence of values.** While iterating, `tick` deletes from the `Set` in place; the model builds the kept sequence instead, in the same order, with the same effects.
  - Url objects in the set are not modelled, so neither is aliasing between them.
  - `Urls.Url` and `Robots.Robot.CheckCollision` model the object form of the same operations.
  - A spawned url is appended to the sequence once its speed is set. The source adds it to the set first, but nothing reads the set in between.
- **`TutorialSession.Session.Loop` never calls `continueTutorial` itself.** Every step has a non-empty message, so the source's `!message` branch is never taken.
- **Main.ts, menus and the tutorial restart** are not part of this model.
