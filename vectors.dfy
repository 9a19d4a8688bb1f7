/** Two-dimensional points and the vector arithmetic the effects use.
    Coordinates are exact reals: an idealisation of JavaScript doubles. */
module Vectors {

  datatype Point = Point(x: real, y: real)

  /** `vecSubtract(vector, minus)`: the componentwise difference. */
  function Subtract(vector: Point, minus: Point): (r: Point)
    ensures Add(r, minus) == vector
    ensures r == Point(0.0, 0.0) <==> vector == minus
  {
    Point(vector.x - minus.x, vector.y - minus.y)
  }

  /** Componentwise sum, the inverse of Subtract. */
  function Add(a: Point, b: Point): Point
  {
    Point(a.x + b.x, a.y + b.y)
  }

  /** Both components multiplied by one factor. */
  function Scaled(a: Point, k: real): Point
  {
    Point(a.x * k, a.y * k)
  }

  /** The difference does not change when both points move by the same offset. */
  lemma SubtractShift(a: Point, b: Point, d: Point)
    ensures Subtract(Add(a, d), Add(b, d)) == Subtract(a, b)
  {
  }
}
