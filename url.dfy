/**
 * Falling urls: the id counter shared by every url, construction, and the
 * impulse one url applies to itself and another when their circles touch.
 */
module Urls {
  import opened Wrappers
  import opened Vectorial
  import opened Geometry
  import opened Consts

  /** What a url is at one instant: its id, code, position and speed. */
  datatype UrlView = UrlView(id: int, code: int, position: Vec, speed: Vec)

  /** `state.lastUrlDelete`: the url last removed, and whether it fell on the search engine. */
  datatype Deletion = Deletion(url: UrlView, fellOnSearch: bool)

  /** Restitution of every collision: the bounce is amplified by 10%. */
  const RESTITUTION: real := 1.1

  /** The static `Url.nextId`: the id the next url will get. */
  class IdCounter {
    var next: int

    constructor ()
      ensures next == 1
    {
      next := 1;
    }
  }

  class Url {
    const id: int
    var code: int
    var position: Vec
    var speed: Vec

    /** `new Url()`: takes the next id, code 404, at rest at the origin. */
    constructor (ids: IdCounter)
      modifies ids
      ensures id == old(ids.next) && ids.next == old(ids.next) + 1
      ensures code == 404 && position == Zero && speed == Zero
    {
      id := ids.next;
      code := 404;
      position := Zero;
      speed := Zero;
      ids.next := ids.next + 1;
    }

    /** `url.circle`: radius URL_RADIUS, centred on the url's current position. */
    function Circle(): (c: Geometry.Circle)
      reads this
      ensures c.center == position && c.radius == URL_RADIUS
    {
      UrlCircle(position)
    }

    function View(): (v: UrlView)
      reads this
      ensures v.id == id && v.code == code && v.position == position && v.speed == speed
    {
      UrlView(id, code, position, speed)
    }

    /** `this.checkCollision(other)` */
    method CheckCollision(other: Url, geo: Oracles)
      requires other != this
      modifies this, other
      ensures position == old(position) && other.position == old(other.position)
      ensures code == old(code) && other.code == old(other.code)
      ensures Pair(speed, other.speed) == PairImpulse(geo, old(View()), old(other.View()))
    {
      var contact := geo.circleHit(Circle(), other.Circle());
      if contact.None? {
        return;
      }
      var collisionSpeed := Subtract(other.speed, speed);
      var direction := Subtract(contact.value, other.position);
      var projection := geo.projection(direction, collisionSpeed);
      if Dot(direction, collisionSpeed) > 0.0 {
        projection := Scale(projection, RESTITUTION);
        speed := Add(speed, projection);
        projection := Scale(projection, RESTITUTION);
        other.speed := Subtract(other.speed, projection);
      }
    }
  }

  datatype Pair = Pair(first: Vec, second: Vec)

  /** The contact normal of `a.checkCollision(b)`: from `b`'s centre to the contact point. */
  function Normal(contact: Vec, b: UrlView): Vec {
    Subtract(contact, b.position)
  }

  /** Whether `a.checkCollision(b)` pushes: the circles touch and `b` approaches `a` along the normal. */
  predicate Approaching(geo: Oracles, a: UrlView, b: UrlView) {
    var contact := geo.circleHit(UrlCircle(a.position), UrlCircle(b.position));
    contact.Some? && Dot(Normal(contact.value, b), Subtract(b.speed, a.speed)) > 0.0
  }

  /** The projection `a.checkCollision(b)` scales, when it pushes. */
  function Projection(geo: Oracles, a: UrlView, b: UrlView): Vec
    requires geo.circleHit(UrlCircle(a.position), UrlCircle(b.position)).Some?
  {
    var contact := geo.circleHit(UrlCircle(a.position), UrlCircle(b.position)).value;
    geo.projection(Normal(contact, b), Subtract(b.speed, a.speed))
  }

  /** The speeds of `a` and `b` after `a.checkCollision(b)`. */
  function PairImpulse(geo: Oracles, a: UrlView, b: UrlView): (r: Pair)
    ensures !Approaching(geo, a, b) ==> r == Pair(a.speed, b.speed)
  {
    if Approaching(geo, a, b) then
      var p1 := Scale(Projection(geo, a, b), RESTITUTION);
      var p2 := Scale(p1, RESTITUTION);
      Pair(Add(a.speed, p1), Subtract(b.speed, p2))
    else Pair(a.speed, b.speed)
  }

  /**
   * The projection is scaled in place twice: `a` gains 1.1 p and `b` loses
   * 1.21 p, so the sum of the two speeds drops by 0.11 p instead of being kept.
   */
  lemma {:induction false} ImpulseNotConserved(geo: Oracles, a: UrlView, b: UrlView)
    requires Approaching(geo, a, b)
    ensures PairImpulse(geo, a, b).first == Add(a.speed, Scale(Projection(geo, a, b), 1.1))
    ensures PairImpulse(geo, a, b).second == Subtract(b.speed, Scale(Projection(geo, a, b), 1.21))
    ensures Add(PairImpulse(geo, a, b).first, PairImpulse(geo, a, b).second)
         == Subtract(Add(a.speed, b.speed), Scale(Projection(geo, a, b), 0.11))
  {
    var p := Projection(geo, a, b);
    ScaleTwice(p, RESTITUTION, RESTITUTION);
  }
}
