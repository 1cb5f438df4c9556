/** The simulated body and its per-tick step (src/point.rs). */
module Points {
  import opened Vectors
  import opened Coordinates
  import opened Bounds
  import opened Forces

  /** The point mass: where it is and how fast it moves. */
  class Point {
    var position: Coordinate
    var velocity: Vector

    /** The struct literal `Point { position, velocity }`. */
    constructor (position: Coordinate, velocity: Vector)
      ensures this.position == position && this.velocity == velocity
    {
      this.position := position;
      this.velocity := velocity;
    }

    /** `Force::apply(&self, &mut Point)`: the force rewrites the velocity in
        place (drag overwrites it, gravity adds to its vertical component)
        and never touches the position. */
    method Apply(f: Force)
      modifies this
      ensures position == old(position)
      ensures velocity == Accelerate(f, old(velocity))
    {
      match f
      case Gravity(g) =>
        velocity := velocity.(y := velocity.y + g);
      case Drag(c) =>
        velocity := Scale(velocity, c);
    }

    /** `Point::travel`.  The point is taken by value, so the caller's point
        is left as it was and a new one is returned: the forces act in list
        order on the velocity, then the position is bounced by the velocity
        they leave.  The bounce cannot fail, and a point that starts inside
        the box stays inside. */
    method Travel(boundingBox: BoundingBox, forces: seq<Force>) returns (moved: Point)
      ensures fresh(moved)
      ensures moved.velocity == ApplyAll(forces, velocity)
      ensures moved.position == Bounce(boundingBox, position, moved.velocity)
      ensures forces == [] ==> moved.velocity == velocity
      ensures Contains(boundingBox, position) ==> Contains(boundingBox, moved.position)
    {
      moved := new Point(position, velocity);
      for i := 0 to |forces|
        invariant moved.position == position
        invariant moved.velocity == ApplyAll(forces[..i], velocity)
      {
        moved.Apply(forces[i]);
        assert forces[..i + 1][..i] == forces[..i];
      }
      assert forces[..|forces|] == forces;
      moved.position := Bounce(boundingBox, moved.position, moved.velocity);
    }

    /** `Point::components_mut`: the two (position, velocity) pairs of the
        point, the x axis first and the y axis second. */
    function Components(): (pairs: seq<(real, real)>)
      reads this
      ensures |pairs| == 2
      ensures pairs[0] == (position.x, velocity.x)
      ensures pairs[1] == (position.y, velocity.y)
    {
      [(position.x, velocity.x), (position.y, velocity.y)]
    }

    /** A write through the pair of references that `components_mut` yields
        at index `axis`: it sets that axis of the position and of the
        velocity, and the other axis keeps both its values. */
    method SetComponent(axis: nat, pos: real, vel: real)
      requires axis < 2
      modifies this
      ensures Components() == old(Components())[axis := (pos, vel)]
    {
      if axis == 0 {
        position := position.(x := pos);
        velocity := velocity.(x := vel);
      } else {
        position := position.(y := pos);
        velocity := velocity.(y := vel);
      }
    }
  }
}
