/**
 * The url sweep of one tick, as a function of the urls it starts from: each
 * url either hits the search engine, leaves through the bottom edge, or falls
 * one step; the counters and the last deletion change as it goes.
 */
module Lifecycle {
  import opened Wrappers
  import opened Vectorial
  import opened Geometry
  import opened Consts
  import opened Helpers
  import opened Urls
  import opened Rules

  datatype Fate = OnSearch | OutOfWorld | Falls

  /** How the sweep handles a url: the search-engine test comes first, then the bottom edge. */
  function FateOf(geo: Oracles, v: UrlView): (f: Fate)
    ensures f == OnSearch <==> CollidesWithSearch(geo, v.position)
    ensures f == OutOfWorld <==> !CollidesWithSearch(geo, v.position) && v.position.y > WORLD_SIZE + URL_RADIUS
    ensures f == Falls <==> !CollidesWithSearch(geo, v.position) && v.position.y <= WORLD_SIZE + URL_RADIUS
  {
    if CollidesWithSearch(geo, v.position) then OnSearch
    else if v.position.y > WORLD_SIZE + URL_RADIUS then OutOfWorld
    else Falls
  }

  /** One step of fall: `speed(url)`, then gravity with the terminal-velocity cap. */
  function Fall(v: UrlView): (w: UrlView)
    ensures w.id == v.id && w.code == v.code
    ensures w.position == Add(v.position, v.speed)
    ensures w.speed.x == v.speed.x && w.speed.y <= TERMINAL_VELOCITY
    ensures w.speed.y <= v.speed.y + GRAVITY
    ensures w.speed.y == v.speed.y + GRAVITY || w.speed.y == TERMINAL_VELOCITY
  {
    v.(position := Add(v.position, v.speed), speed := v.speed.(y := Min(v.speed.y + GRAVITY, TERMINAL_VELOCITY)))
  }

  /** `n` steps of fall on a url nothing else touches. */
  function FallFor(v: UrlView, n: nat): UrlView
    decreases n
  {
    if n == 0 then v else Fall(FallFor(v, n - 1))
  }

  /** The vertical speed of a falling url is `Consts.FallSpeed`, one gravity step per `Fall`; its horizontal speed is kept. */
  lemma {:induction false} FallForSpeed(v: UrlView, n: nat)
    ensures FallFor(v, n).speed.y == FallSpeed(v.speed.y, n)
    ensures FallFor(v, n).speed.x == v.speed.x
    decreases n
  {
    if n > 0 {
      FallForSpeed(v, n - 1);
    }
  }

  datatype Round = Round(counters: Counters, last: Option<Deletion>, survivors: seq<UrlView>)

  /** The sweep handling one more url `v`. */
  function SweepStep(geo: Oracles, r: Round, v: UrlView, dead: bool, step: int): Round {
    match FateOf(geo, v)
    case OnSearch => Round(Landed(r.counters, v.code, dead), Some(Deletion(v, true)), r.survivors)
    case OutOfWorld => Round(Diverted(r.counters, v.code, dead, step), Some(Deletion(v, false)), r.survivors)
    case Falls => r.(survivors := r.survivors + [Fall(v)])
  }

  /** The sweep over `vs` in iteration order, from `start`, with the robot `dead` or not, at `step`. */
  function Sweep(geo: Oracles, start: Round, vs: seq<UrlView>, dead: bool, step: int): Round
    decreases |vs|
  {
    if vs == [] then start
    else SweepStep(geo, Sweep(geo, start, vs[..|vs| - 1], dead, step), vs[|vs| - 1], dead, step)
  }

  /** Sweeping one more url of `vs` is one more `SweepStep`. */
  lemma SweepPrefix(geo: Oracles, start: Round, vs: seq<UrlView>, i: nat, dead: bool, step: int)
    requires i < |vs|
    ensures Sweep(geo, start, vs[..i + 1], dead, step) == SweepStep(geo, Sweep(geo, start, vs[..i], dead, step), vs[i], dead, step)
  {
    assert vs[..i + 1][..i] == vs[..i];
  }

  /** The urls that survive, in order: exactly those whose fate is to fall. */
  function Falling(geo: Oracles, vs: seq<UrlView>): (s: seq<UrlView>)
    ensures |s| <= |vs|
    ensures forall u :: u in s <==> u in vs && FateOf(geo, u) == Falls
    decreases |vs|
  {
    if vs == [] then []
    else
      var init := Falling(geo, vs[..|vs| - 1]);
      if FateOf(geo, vs[|vs| - 1]) == Falls then init + [vs[|vs| - 1]] else init
  }

  /** How many urls the sweep removes. */
  function Removed(geo: Oracles, vs: seq<UrlView>): (n: nat)
    decreases |vs|
  {
    if vs == [] then 0
    else Removed(geo, vs[..|vs| - 1]) + (if FateOf(geo, vs[|vs| - 1]) == Falls then 0 else 1)
  }

  /** Ids strictly increasing along a sequence of urls (creation order). */
  predicate IncreasingIds(vs: seq<UrlView>) {
    forall i, j :: 0 <= i < j < |vs| ==> vs[i].id < vs[j].id
  }

  /**
   * Every url is handled in exactly one way: the survivors are exactly the
   * falling urls, each moved one step, and together with the removed ones they
   * account for every url.
   */
  lemma {:induction false} SweepSurvivors(geo: Oracles, start: Round, vs: seq<UrlView>, dead: bool, step: int)
    ensures var r := Sweep(geo, start, vs, dead, step);
      && |r.survivors| == |start.survivors| + |Falling(geo, vs)|
      && r.survivors[..|start.survivors|] == start.survivors
      && (forall k :: 0 <= k < |Falling(geo, vs)| ==>
            r.survivors[|start.survivors| + k] == Fall(Falling(geo, vs)[k]))
    ensures |Falling(geo, vs)| + Removed(geo, vs) == |vs|
    decreases |vs|
  {
    if vs != [] {
      SweepSurvivors(geo, start, vs[..|vs| - 1], dead, step);
    }
  }

  /** The falling urls keep their order, so ids stay increasing after the sweep. */
  lemma {:induction false} FallingKeepsOrder(geo: Oracles, vs: seq<UrlView>)
    requires IncreasingIds(vs)
    ensures IncreasingIds(Falling(geo, vs))
    ensures forall k :: 0 <= k < |Falling(geo, vs)| ==> Falling(geo, vs)[k] in vs
    decreases |vs|
  {
    if vs != [] {
      var init := vs[..|vs| - 1];
      FallingKeepsOrder(geo, init);
    }
  }

  /** All survivors move at most at terminal speed downward, with unchanged horizontal speed. */
  lemma {:induction false} SurvivorsCapped(geo: Oracles, vs: seq<UrlView>, dead: bool, step: int, c: Counters, last: Option<Deletion>)
    ensures var s := Sweep(geo, Round(c, last, []), vs, dead, step).survivors;
      |s| == |Falling(geo, vs)| && forall k :: 0 <= k < |s| ==> s[k].speed.y <= TERMINAL_VELOCITY && s[k].speed.x == Falling(geo, vs)[k].speed.x
  {
    var start := Round(c, last, []);
    SweepSurvivors(geo, start, vs, dead, step);
    var s := Sweep(geo, start, vs, dead, step).survivors;
    forall k | 0 <= k < |s|
      ensures s[k] == Fall(Falling(geo, vs)[k])
    {
      assert s[|start.survivors| + k] == Fall(Falling(geo, vs)[k]);
    }
  }

  /**
   * The counters stay sound through the sweep, the score never decreases,
   * and a dead robot leaves every counter untouched.
   */
  lemma {:induction false} SweepCounters(geo: Oracles, start: Round, vs: seq<UrlView>, dead: bool, step: int)
    requires Sound(start.counters)
    ensures var c := Sweep(geo, start, vs, dead, step).counters;
      Sound(c) && c.score >= start.counters.score && (dead ==> c == start.counters)
    decreases |vs|
  {
    if vs != [] {
      SweepCounters(geo, start, vs[..|vs| - 1], dead, step);
    }
  }

  /** The position of the last url of `vs` the sweep removes, or -1 when it removes none. */
  function LastRemoved(geo: Oracles, vs: seq<UrlView>): (k: int)
    ensures -1 <= k < |vs|
    ensures k >= 0 ==> FateOf(geo, vs[k]) != Falls
    ensures forall m :: k < m < |vs| ==> FateOf(geo, vs[m]) == Falls
    ensures k < 0 <==> Removed(geo, vs) == 0
    decreases |vs|
  {
    if vs == [] then -1
    else if FateOf(geo, vs[|vs| - 1]) != Falls then |vs| - 1
    else
      var k := LastRemoved(geo, vs[..|vs| - 1]);
      assert forall m :: k < m < |vs| - 1 ==> vs[..|vs| - 1][m] == vs[m];
      k
  }

  /**
   * The last deletion is that of the last url the sweep removes, with
   * `fellOnSearch` set when it hit the search engine; with none removed it is
   * the one the sweep started from.
   */
  lemma {:induction false} SweepLast(geo: Oracles, start: Round, vs: seq<UrlView>, dead: bool, step: int)
    ensures var k := LastRemoved(geo, vs);
      Sweep(geo, start, vs, dead, step).last
        == if k < 0 then start.last else Some(Deletion(vs[k], FateOf(geo, vs[k]) == OnSearch))
    decreases |vs|
  {
    if vs != [] {
      var init := vs[..|vs| - 1];
      SweepLast(geo, start, init, dead, step);
      var k := LastRemoved(geo, init);
      if k >= 0 {
        assert vs[k] == init[k];
      }
    }
  }

  /** Every id of `vs` is below `next`. */
  predicate IdsBelow(vs: seq<UrlView>, next: int) {
    forall k :: 0 <= k < |vs| ==> vs[k].id < next
  }

  /**
   * The survivors of a sweep from an empty set keep the creation order of the
   * urls they come from, and no new id appears.
   */
  lemma SweepKeepsIds(geo: Oracles, c: Counters, last: Option<Deletion>, vs: seq<UrlView>, dead: bool, step: int, next: int)
    requires IncreasingIds(vs) && IdsBelow(vs, next)
    ensures var s := Sweep(geo, Round(c, last, []), vs, dead, step).survivors;
      IncreasingIds(s) && IdsBelow(s, next)
  {
    var start := Round(c, last, []);
    SweepSurvivors(geo, start, vs, dead, step);
    FallingKeepsOrder(geo, vs);
    var s := Sweep(geo, start, vs, dead, step).survivors;
    var f := Falling(geo, vs);
    forall k | 0 <= k < |s|
      ensures s[k].id == f[k].id && f[k] in vs
    {
      assert s[|start.survivors| + k] == Fall(f[k]);
    }
  }
}
