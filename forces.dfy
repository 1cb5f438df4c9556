/** The forces that act on the point: drag (src/drag.rs) and gravity
    (src/gravity.rs).  The source's open `Force` interface (src/traits.rs)
    becomes the closed datatype `Force`; a force only ever changes the
    point's velocity, so its effect is stated here as a function of the
    velocity, and the in-place application is `Points.Point.Apply`. */
module Forces {
  import opened Vectors

  /** A drag coefficient as `Drag::new` stores it: clamped to [0, 1]. */
  type Coefficient = c: real | 0.0 <= c <= 1.0 witness 0.0

  datatype Force =
    | Gravity(gravConstant: real)
    | Drag(coefficient: Coefficient)

  /** Distance between two reals. */
  function Distance(a: real, b: real): real {
    Abs(a - b)
  }

  /** `Drag::new`: the coefficient is clamped into [0, 1], that is, replaced
      by the nearest value of that interval. */
  function NewDrag(coefficient: real): (f: Force)
    ensures f.Drag?
    ensures 0.0 <= coefficient <= 1.0 ==> f.coefficient == coefficient
    ensures coefficient < 0.0 ==> f.coefficient == 0.0
    ensures coefficient > 1.0 ==> f.coefficient == 1.0
  {
    Drag(if coefficient < 0.0 then 0.0 else if coefficient > 1.0 then 1.0 else coefficient)
  }

  /** The clamped coefficient is the value of [0, 1] nearest to the input. */
  lemma NewDragNearest(coefficient: real, d: Coefficient)
    ensures Distance(coefficient, NewDrag(coefficient).coefficient) <= Distance(coefficient, d)
  {
  }

  /** `Gravity::default()`. */
  function DefaultGravity(): (f: Force)
    ensures f.Gravity? && f.gravConstant == 1.0
  {
    Gravity(1.0)
  }

  /** The velocity `Drag::apply` leaves: scaled by the coefficient, so
      coefficient 0 stops the point and coefficient 1 does nothing. */
  function DragVelocity(c: Coefficient, v: Vector): (r: Vector)
    ensures c == 0.0 ==> r == Zero()
    ensures c == 1.0 ==> r == v
  {
    Scale(v, c)
  }

  /** Drag stops the point exactly when its coefficient is 0 or the point
      was already at rest. */
  lemma DragStops(c: Coefficient, v: Vector)
    ensures DragVelocity(c, v) == Zero() <==> c == 0.0 || v == Zero()
  {
    if c != 0.0 && DragVelocity(c, v) == Zero() {
      assert v.x == v.x * c / c;
      assert v.y == v.y * c / c;
    }
  }

  /** Drag never makes a velocity component grow in magnitude. */
  lemma DragShrinks(c: Coefficient, v: Vector)
    ensures Abs(DragVelocity(c, v).x) <= Abs(v.x) && Abs(DragVelocity(c, v).y) <= Abs(v.y)
  {
    ShrinkReal(v.x, c);
    ShrinkReal(v.y, c);
  }

  lemma ShrinkReal(a: real, c: Coefficient)
    ensures Abs(a * c) <= Abs(a)
  {
    if a >= 0.0 {
      ShrinkNonnegative(a, c);
    } else {
      ShrinkNonnegative(-a, c);
      assert a * c == -((-a) * c);
    }
  }

  lemma ShrinkNonnegative(a: real, c: Coefficient)
    requires 0.0 <= a
    ensures 0.0 <= a * c <= a
  {
    assert 0.0 <= a * (1.0 - c);
    assert a - a * c == a * (1.0 - c);
  }

  /** The velocity `Gravity::apply` leaves: the constant added to the
      vertical component, the horizontal one untouched. */
  function GravityVelocity(g: real, v: Vector): (r: Vector)
    ensures r.x == v.x
    ensures r.y - v.y == g
  {
    Vector(v.x, v.y + g)
  }

  /** `Force::apply`, seen through the velocity it produces: gravity shifts
      only the vertical component by its constant, drag scales both. */
  function Accelerate(f: Force, v: Vector): (r: Vector)
    ensures f.Gravity? ==> r.x == v.x && r.y - v.y == f.gravConstant
    ensures f.Drag? ==> r == Scale(v, f.coefficient)
  {
    match f
    case Gravity(g) => GravityVelocity(g, v)
    case Drag(c) => DragVelocity(c, v)
  }

  /** The velocity left by applying `forces` in list order, each force seeing
      the velocity the previous one produced. */
  function ApplyAll(forces: seq<Force>, v: Vector): (r: Vector)
    ensures forces == [] ==> r == v
    ensures (forall f <- forces :: f.Gravity?) ==> r.x == v.x
    decreases |forces|
  {
    if forces == [] then v
    else Accelerate(forces[|forces| - 1], ApplyAll(forces[..|forces| - 1], v))
  }

  /** Applying a list in two parts is applying the second part to what the
      first part left. */
  lemma {:induction false} ApplyAllAppend(first: seq<Force>, rest: seq<Force>, v: Vector)
    ensures ApplyAll(first + rest, v) == ApplyAll(rest, ApplyAll(first, v))
    decreases |rest|
  {
    if rest == [] {
      assert first + rest == first;
    } else {
      var n := |rest| - 1;
      assert (first + rest)[..|first + rest| - 1] == first + rest[..n];
      ApplyAllAppend(first, rest[..n], v);
    }
  }

  /** The first force of the list acts first, on the original velocity. */
  lemma ApplyAllFirst(f: Force, rest: seq<Force>, v: Vector)
    ensures ApplyAll([f] + rest, v) == ApplyAll(rest, Accelerate(f, v))
  {
    ApplyAllAppend([f], rest, v);
    assert [f][..0] == [];
  }

  /** Two forces applied in turn: the second sees the velocity the first left. */
  lemma ApplyPair(f: Force, h: Force, v: Vector)
    ensures ApplyAll([f, h], v) == Accelerate(h, Accelerate(f, v))
  {
    var fs := [f, h];
    assert fs[..|fs| - 1] == [f];
    assert [f][..0] == [];
    assert ApplyAll([f], v) == Accelerate(f, ApplyAll([], v));
  }

  /** Drag then gravity: the drag damps only the old vertical velocity. */
  lemma DragThenGravity(c: Coefficient, g: real, v: Vector)
    ensures ApplyAll([Drag(c), Gravity(g)], v) == Vector(v.x * c, v.y * c + g)
  {
    ApplyPair(Drag(c), Gravity(g), v);
    DragStep(c, v);
    GravityStep(g, Vector(v.x * c, v.y * c));
  }

  /** Gravity then drag: the drag also damps the constant just added. */
  lemma GravityThenDrag(c: Coefficient, g: real, v: Vector)
    ensures ApplyAll([Gravity(g), Drag(c)], v) == Vector(v.x * c, (v.y + g) * c)
  {
    ApplyPair(Gravity(g), Drag(c), v);
    GravityStep(g, v);
    DragStep(c, Vector(v.x, v.y + g));
  }

  lemma DragStep(c: Coefficient, v: Vector)
    ensures Accelerate(Drag(c), v) == Vector(v.x * c, v.y * c)
  {
  }

  lemma GravityStep(g: real, v: Vector)
    ensures Accelerate(Gravity(g), v) == Vector(v.x, v.y + g)
  {
  }

  /** Order matters: the two orders differ as soon as the drag does
      something and the gravity is non-zero. */
  lemma DragGravityOrderMatters(c: Coefficient, g: real, v: Vector)
    requires c != 1.0 && g != 0.0
    ensures ApplyAll([Drag(c), Gravity(g)], v) != ApplyAll([Gravity(g), Drag(c)], v)
  {
    DragThenGravity(c, g, v);
    GravityThenDrag(c, g, v);
    DampedSumDiffers(v.y, c, g);
  }

  lemma DampedSumDiffers(y: real, c: real, g: real)
    ensures c != 1.0 && g != 0.0 ==> y * c + g != (y + g) * c
  {
    assert (y + g) * c == y * c + g * c;
    if c != 1.0 && g != 0.0 {
      assert (y * c + g) - (y + g) * c == (1.0 - c) * g;
      assert (1.0 - c) * g != 0.0;
    }
  }

  /** The list holding `f` exactly `n` times. */
  function Repeat(f: Force, n: nat): (fs: seq<Force>)
    ensures |fs| == n
    ensures forall i :: 0 <= i < n ==> fs[i] == f
  {
    seq(n, _ => f)
  }

  /** `c` raised to the power `n`; stays in [0, 1] when `c` does. */
  function Power(c: real, n: nat): (p: real)
    ensures 0.0 <= c <= 1.0 ==> 0.0 <= p <= 1.0
  {
    if n == 0 then 1.0
    else
      var q := Power(c, n - 1);
      assert 0.0 <= c <= 1.0 ==> 0.0 <= q * c <= 1.0 by {
        if 0.0 <= c <= 1.0 {
          ShrinkNonnegative(q, c);
        }
      }
      q * c
  }

  /** The same drag applied `n` times scales the velocity by c^n. */
  lemma {:induction false} DragRepeated(c: Coefficient, n: nat, v: Vector)
    ensures ApplyAll(Repeat(Drag(c), n), v) == Scale(v, Power(c, n))
  {
    if n == 0 {
      assert Scale(v, 1.0) == v;
    } else {
      var fs := Repeat(Drag(c), n);
      assert fs[..n - 1] == Repeat(Drag(c), n - 1);
      DragRepeated(c, n - 1, v);
      assert ApplyAll(fs, v) == Scale(Scale(v, Power(c, n - 1)), c);
      ScaleTwice(v, Power(c, n - 1), c);
    }
  }

  /** However often the same drag is applied, no velocity component grows
      in magnitude. */
  lemma DragRepeatedShrinks(c: Coefficient, n: nat, v: Vector)
    ensures Abs(ApplyAll(Repeat(Drag(c), n), v).x) <= Abs(v.x)
    ensures Abs(ApplyAll(Repeat(Drag(c), n), v).y) <= Abs(v.y)
  {
    DragRepeated(c, n, v);
    DragShrinks(Power(c, n), v);
  }

  /** The same gravity applied `n` times adds `n` times its constant to the
      vertical velocity and leaves the horizontal one alone. */
  lemma {:induction false} GravityRepeated(g: real, n: nat, v: Vector)
    ensures ApplyAll(Repeat(Gravity(g), n), v) == Vector(v.x, v.y + n as real * g)
  {
    if n > 0 {
      GravityRepeated(g, n - 1, v);
      assert Repeat(Gravity(g), n)[..n - 1] == Repeat(Gravity(g), n - 1);
      assert (n - 1) as real * g + g == n as real * g;
    }
  }
}
