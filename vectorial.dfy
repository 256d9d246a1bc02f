/**
 * Two-dimensional vectors. The source's vectors are mutable objects whose
 * operations change the receiver and return it; here they are values, and
 * every chain of such calls is written as a sequence of rebindings in the
 * same order, so a receiver changed twice is changed twice here too.
 */
module Vectorial {

  datatype Vec = Vec(x: real, y: real)

  const Zero: Vec := Vec(0.0, 0.0)

  /** `a.add(b)` */
  function Add(a: Vec, b: Vec): Vec {
    Vec(a.x + b.x, a.y + b.y)
  }

  /** `a.subtract(b)` */
  function Subtract(a: Vec, b: Vec): Vec {
    Vec(a.x - b.x, a.y - b.y)
  }

  /** `a.setAsScaledBy(k)` */
  function Scale(a: Vec, k: real): Vec {
    Vec(k * a.x, k * a.y)
  }

  /** `a.scalarProduct(b)` */
  function Dot(a: Vec, b: Vec): real {
    a.x * b.x + a.y * b.y
  }

  lemma ScaleTwice(a: Vec, k: real, l: real)
    ensures Scale(Scale(a, k), l) == Scale(a, k * l)
  {
  }
}
