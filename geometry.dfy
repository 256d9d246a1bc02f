/**
 * Shapes and the geometric collaborators the engine uses but does not define.
 * The intersection tests, the per-step polygon transform and the vector
 * projection come from modules outside this model; they are carried as
 * uninterpreted total functions in one `Oracles` value that the game is built
 * with, so every use of them here is deterministic in its arguments.
 */
module Geometry {
  import opened Wrappers
  import opened Vectorial
  import opened Consts

  /** A circle: a radius and the position of its owner (read, never copied). */
  datatype Circle = Circle(center: Vec, radius: real)

  datatype Oracles = Oracles(
    /** `a.intersectsWithCircle(b, contact)`: Some(contact) on overlap. */
    circleHit: (Circle, Circle) -> Option<Vec>,
    /** A world-space polygon's `intersectsWithCircle(c, contact)`. */
    polygonHit: (seq<Vec>, Circle) -> Option<Vec>,
    /** `RenderablePolygon.preStep`: local points, owner position and the horizontal
        speed the lean angle is derived from, to world-space points. */
    transform: (seq<Vec>, Vec, real) -> seq<Vec>,
    /** `receiver.setAsProjectionWith(argument)`, operands in that order. */
    projection: (Vec, Vec) -> Vec
  )

  const SEARCH_WIDTH: real := 0.8 * WORLD_SIZE
  const SEARCH_HEIGHT: real := 0.08 * WORLD_SIZE

  /** The search engine: the rectangle along the bottom edge of the world. */
  function SearchPolygon(): (p: seq<Vec>)
    ensures |p| == 4
    ensures p[0].y == p[1].y == WORLD_SIZE - SEARCH_HEIGHT && p[2].y == p[3].y == WORLD_SIZE
    ensures p[0].x == p[3].x == 100.0 && p[1].x == p[2].x == 900.0
    ensures SEARCH_HEIGHT == 80.0
  {
    [ Vec((WORLD_SIZE - SEARCH_WIDTH) / 2.0, WORLD_SIZE - SEARCH_HEIGHT),
      Vec((WORLD_SIZE + SEARCH_WIDTH) / 2.0, WORLD_SIZE - SEARCH_HEIGHT),
      Vec((WORLD_SIZE + SEARCH_WIDTH) / 2.0, WORLD_SIZE),
      Vec((WORLD_SIZE - SEARCH_WIDTH) / 2.0, WORLD_SIZE) ]
  }

  /** A url's circle of radius URL_RADIUS around its current position. */
  function UrlCircle(position: Vec): Circle {
    Circle(position, URL_RADIUS)
  }

  /** `collidesWithSearch(url)` */
  predicate CollidesWithSearch(geo: Oracles, position: Vec) {
    geo.polygonHit(SearchPolygon(), UrlCircle(position)).Some?
  }
}
