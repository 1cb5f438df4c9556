/** Positions in the simulation plane (src/coordinate.rs). */
module Coordinates {
  import opened Vectors

  /** A position; a type distinct from Vector so that the two are not confused. */
  datatype Coordinate = Coordinate(x: real, y: real)

  /** `Coordinate::add`: the coordinate translated by a vector.  The
      displacement from `c` to the result is exactly `v`, axis by axis. */
  function Add(c: Coordinate, v: Vector): (r: Coordinate)
    ensures r.x - c.x == v.x && r.y - c.y == v.y
  {
    Coordinate(c.x + v.x, c.y + v.y)
  }

  /** Translating by the zero vector leaves a coordinate where it is. */
  lemma AddZero(c: Coordinate)
    ensures Add(c, Zero()) == c
  {
  }

  /** Two successive translations commute. */
  lemma AddCommutes(c: Coordinate, v: Vector, w: Vector)
    ensures Add(Add(c, v), w) == Add(Add(c, w), v)
  {
  }
}
