/** The axis-aligned rectangle anchored at the origin that confines the
    point (src/bounding_box.rs). */
module Bounds {
  import opened Vectors
  import opened Coordinates

  /** The two sides of a rectangle with corners (0, 0) and (width, height). */
  datatype Dimensions = Dimensions(width: real, height: real)

  /** A box as the source can hold one: its fields are private and only
      `New` builds it, so both sides are positive. */
  type BoundingBox = d: Dimensions | d.width > 0.0 && d.height > 0.0 witness Dimensions(1.0, 1.0)

  /** `BoundingBoxError`: the only way construction fails. */
  datatype BoundingBoxError = DimensionError

  datatype Result<+T, +E> = Ok(value: T) | Err(error: E)

  /** `BoundingBox::new`: fails exactly on a non-positive dimension, and
      otherwise keeps both dimensions as given. */
  function New(width: real, height: real): (r: Result<BoundingBox, BoundingBoxError>)
    ensures r.Err? <==> width <= 0.0 || height <= 0.0
    ensures r.Err? ==> r.error == DimensionError
    ensures r.Ok? ==> r.value.width == width && r.value.height == height
  {
    if width <= 0.0 || height <= 0.0 then Err(DimensionError)
    else
      var b: BoundingBox := Dimensions(width, height);
      Ok(b)
  }

  /** `t` lies in the closed interval [0, limit]. */
  predicate Within(t: real, limit: real) {
    0.0 <= t <= limit
  }

  /** `BoundingBox::contains`: each axis is tested on its own against the
      closed interval from 0 to the box's side, so edges and corners count
      as inside. */
  predicate Contains(b: BoundingBox, c: Coordinate)
    ensures Contains(b, c) <==> Within(c.x, b.width) && Within(c.y, b.height)
  {
    c.x >= 0.0 && c.x <= b.width && c.y >= 0.0 && c.y <= b.height
  }

  /** Every point on one of the four edges, corners included, lies inside. */
  lemma ContainsEdges(b: BoundingBox, c: Coordinate)
    requires || ((c.x == 0.0 || c.x == b.width) && 0.0 <= c.y <= b.height)
             || ((c.y == 0.0 || c.y == b.height) && 0.0 <= c.x <= b.width)
    ensures Contains(b, c)
  {
  }

  /** Any point past one of the four edges, however slightly, lies outside. */
  lemma ContainsExcludesOutside(b: BoundingBox, c: Coordinate)
    requires c.x < 0.0 || c.x > b.width || c.y < 0.0 || c.y > b.height
    ensures !Contains(b, c)
  {
  }

  /** `BoundingBox::bounce`: move by `v` when the target is inside the box,
      otherwise stay put (the reflection branch is unfinished in the source).
      A coordinate that starts inside stays inside, whatever the vector. */
  function Bounce(b: BoundingBox, c: Coordinate, v: Vector): (r: Coordinate)
    ensures Contains(b, Add(c, v)) ==> r == Add(c, v)
    ensures !Contains(b, Add(c, v)) ==> r == c
    ensures Contains(b, c) ==> Contains(b, r)
  {
    var target := Add(c, v);
    if Contains(b, target) then target else c
  }

  /** Bouncing by the zero vector returns the coordinate unchanged. */
  lemma BounceZero(b: BoundingBox, c: Coordinate)
    ensures Bounce(b, c, Zero()) == c
  {
    AddZero(c);
  }

  /** What the code returns on the inputs of the unit test `test_bounce`.
      The first expectation holds; the other three expect a mirrored position
      ((8, 9), (9, 8), (8.5, 8)) that the code does not compute: it returns
      the starting coordinate (9, 9) instead. */
  lemma BounceTestExpectations()
    ensures New(10.0, 10.0).Ok? && New(10.0, 10.0).value == Dimensions(10.0, 10.0)
    ensures Bounce(Dimensions(10.0, 10.0), Coordinate(5.0, 5.0), Zero()) == Coordinate(5.0, 5.0)
    ensures Bounce(Dimensions(10.0, 10.0), Coordinate(9.0, 9.0), Vector(3.0, 0.0)) == Coordinate(9.0, 9.0)
    ensures Bounce(Dimensions(10.0, 10.0), Coordinate(9.0, 9.0), Vector(0.0, 3.0)) == Coordinate(9.0, 9.0)
    ensures Bounce(Dimensions(10.0, 10.0), Coordinate(9.0, 9.0), Vector(2.5, 3.0)) == Coordinate(9.0, 9.0)
    ensures Coordinate(9.0, 9.0) != Coordinate(8.0, 9.0)
    ensures Coordinate(9.0, 9.0) != Coordinate(9.0, 8.0)
    ensures Coordinate(9.0, 9.0) != Coordinate(8.5, 8.0)
  {
  }
}
