# Point-in-a-box physics step, modelled in Dafny

This project models the physics core of a small 2D simulation: one point mass
moving inside an axis-aligned rectangle whose corner sits at the origin. Each
tick, a list of forces changes the point's velocity in order. The point then
takes one step by that velocity, but only if the step ends inside the
rectangle. The source's `f64` values are modelled as Dafny `real`s.

Modules, one per source file (drag, gravity and the `Force` interface share one):

- `Vectors` (`src/vector.rs`): `Vector`, `Zero`, and `Scale`. `Scale` is the
  `Vector * f64` operator. The drag force uses it, but the modelled files do not
  define it, so the model reads it as multiplying both components.
- `Coordinates` (`src/coordinate.rs`): `Coordinate` and its translation `Add`.
- `Bounds` (`src/bounding_box.rs`): `BoundingBox`, the validating constructor
  `New`, the inclusive test `Contains`, and `Bounce`. `BoundingBox` is a subset
  type whose sides are both positive. In the source the fields are private and
  only `new` builds a box, so no other box exists.
- `Forces` (`src/drag.rs`, `src/gravity.rs`, `src/traits.rs`): the closed
  datatype `Force = Gravity(gravConstant) | Drag(coefficient)`. It replaces the
  `Box<dyn Force>` interface. The module also gives each force's effect on the
  velocity (`Accelerate`) and the effect of a whole force list applied in order
  (`ApplyAll`). A drag coefficient has the subset type `Coefficient` = [0, 1]:
  in the source the field is private and is only ever set through the clamp in
  `Drag::new`.
- `Points` (`src/point.rs`): the class `Point`, which has the mutable fields
  `position` and `velocity`. `Apply` is `Force::apply` writing the velocity in
  place. `Travel` is the per-tick step. `Components` and `SetComponent` model
  the references handed out by `components_mut`.

Decisions where the source is incomplete:

- `Point::travel` calls `bounding_box.bounce(self)` with a whole `Point`
  (src/point.rs:26). But `bounce` takes a coordinate and a vector and returns
  a coordinate (src/bounding_box.rs:36). The model reads the call as: new
  position = `Bounce(box, position, velocity after the forces)`, and the
  velocity stays as the forces left it. Under this reading the step cannot
  fail, so `Travel` returns a `Point` and not a result.
- `travel` takes `mut self` by value, so the caller's point is never changed.
  `Travel` therefore returns a fresh `Point`, and the receiver is not in any
  `modifies` clause.
- The reflection branch of `bounce` is an unfinished `TODO`
  (src/bounding_box.rs:41). When the target is outside, the code returns the
  original coordinate. The model follows the code. The unit test
  `test_bounce` expects the point to be mirrored back into the box
  (src/bounding_box.rs:63-71): for example, (9, 9) moved by (3, 0) in a 10 by
  10 box should end at (8, 9). Three of its four assertions therefore do not
  hold for the code. `Bounds.BounceTestExpectations` states what the code
  returns on those inputs.

## Model

| member | source | states |
|---|---|---|
| `Coordinates.Add` | src/coordinate.rs:16-21 | the displacement from the coordinate to the result is exactly the vector, on each axis |
| `Coordinates.AddZero` | src/coordinate.rs:16-21 | translating by `Vector::zero()` returns the same coordinate |
| `Coordinates.AddCommutes` | src/coordinate.rs:16-21 | two successive translations give the same coordinate in either order |
| `Vectors.Zero` | src/vector.rs:8-10 | the zero vector has both components 0 |
| `Vectors.Scale` | src/drag.rs:19 | `Vector * f64` multiplies both components by the scalar: factor 1 returns the vector, factor 0 returns the zero vector |
| `Bounds.New` | src/bounding_box.rs:18-24 | construction fails with `DimensionError` exactly when width <= 0 or height <= 0; otherwise the box keeps both dimensions unchanged (the box type makes both positive) |
| `Bounds.Contains` | src/bounding_box.rs:27-32 | true iff 0 <= x <= width and 0 <= y <= height, each axis tested on its own, edges included |
| `Bounds.ContainsEdges` | src/bounding_box.rs:27-32 | every point on one of the four edges, corners included, counts as inside (the test is inclusive) |
| `Bounds.ContainsExcludesOutside` | src/bounding_box.rs:27-32 | any point past one of the four edges, however slightly, is not inside |
| `Bounds.Bounce` | src/bounding_box.rs:36-44 | if `coordinate + vec` is inside, the result is exactly `coordinate + vec`; otherwise it is the original coordinate; a coordinate that starts inside stays inside for every vector |
| `Bounds.BounceZero` | src/bounding_box.rs:57-59 | bouncing any coordinate by the zero vector returns it unchanged |
| `Bounds.BounceTestExpectations` | src/bounding_box.rs:53-72 | on the inputs of `test_bounce` the code returns (5,5) (as the test expects) and then (9,9) three times, where the test expects (8,9), (9,8) and (8.5,8) |
| `Forces.NewDrag` | src/drag.rs:9-13 | the stored coefficient is the input when the input is in [0,1]; it is 0 below that range and 1 above it |
| `Forces.NewDragNearest` | src/drag.rs:11 | the clamped coefficient is the value of [0,1] nearest to the input |
| `Forces.DragVelocity` | src/drag.rs:8-20 | the velocity drag leaves: coefficient 0.0 makes it zero, coefficient 1.0 leaves it unchanged |
| `Forces.DragStops` | src/drag.rs:17-20 | drag yields the zero velocity exactly when the coefficient is 0 or the velocity was already zero |
| `Forces.DragShrinks` | src/drag.rs:17-20 | scaling by a coefficient in [0,1] makes neither velocity component larger in magnitude |
| `Forces.DragRepeated` | src/drag.rs:17-20 | applying the same drag n times scales the velocity by c to the power n |
| `Forces.DragRepeatedShrinks` | src/drag.rs:9-20 | however many times the same drag is applied, no velocity component grows in magnitude |
| `Forces.DefaultGravity` | src/gravity.rs:7-11 | `Gravity::default()` is a gravity force whose constant is 1.0 |
| `Forces.GravityVelocity` | src/gravity.rs:14-17 | gravity adds its constant to the vertical velocity and leaves the horizontal velocity unchanged |
| `Forces.GravityRepeated` | src/gravity.rs:16 | applying the same gravity n times adds n times its constant to the vertical velocity and leaves the horizontal velocity alone |
| `Forces.Accelerate` | src/traits.rs:3-5 | a force's effect on the velocity: gravity leaves x and adds its constant to y; drag scales both components by its coefficient |
| `Forces.ApplyAll` | src/point.rs:20-22 | the forces' velocity effects composed in list order; an empty list leaves the velocity unchanged, and a list of gravity forces only never changes x |
| `Forces.ApplyAllAppend` | src/point.rs:20-22 | applying a force list split in two equals applying the second part to the velocity the first part left |
| `Forces.ApplyAllFirst` | src/point.rs:20-22 | the first force of the list acts first, on the original velocity, and the rest see what it left |
| `Forces.DragThenGravity` | src/point.rs:20-22 | drag(c) then gravity(g) gives velocity (c*vx, c*vy + g) |
| `Forces.GravityThenDrag` | src/point.rs:20-22 | gravity(g) then drag(c) gives velocity (c*vx, c*(vy + g)) |
| `Forces.DragGravityOrderMatters` | src/point.rs:20-22 | with c != 1 and g != 0 the two orders give different velocities |
| `Points.Point.constructor` | src/point.rs:6-10 | a point holds exactly the position and velocity it is built with |
| `Points.Point.Apply` | src/traits.rs:3-5 | applying a force rewrites the velocity in place to the force's effect and never changes the position |
| `Points.Point.Travel` | src/point.rs:14-27 | the returned point is new and the caller's point is unchanged; its velocity is the forces applied in list order; its position is the bounce of the old position by that velocity; no forces means a plain bounce; a point that starts inside stays inside |
| `Points.Point.Components` | src/point.rs:29-33 | exactly two pairs, in order: (position.x, velocity.x), then (position.y, velocity.y) |
| `Points.Point.SetComponent` | src/point.rs:29-33 | writing through the pair at one axis sets that axis of the position and of the velocity; the other pair is unchanged |

## Left out

- `src/main.rs` as a whole is not modelled: the SDL2 window, canvas, event pump, font and FPS drawing, command-line handling, frame pacing with `thread::sleep`, and the keyboard mapping `is_direction_press`. It also calls functions that are not defined in the modelled files: `Gravity::new`, a three-argument `travel`, `GenericForce`, and `Vector::scale`/`min`/`zero_out`/`TryFrom<Scancode>`. The user-impulse force and the optional extra force of `travel` come only from there, so they are not modelled either.
- `Into<Rect> for Point` (src/point.rs:36-43) and `Coordinate::rounded_as_ints` (src/coordinate.rs:11-13) are not modelled. They only round floats to `i32` for drawing.
- IEEE-754 behaviour is not modelled: rounding, NaN and infinities. Every value is an exact real. One consequence: a NaN width makes `width <= 0.0` false, so the real `BoundingBox::new` accepts it, but no real number behaves that way.
- The mirror reflection that `test_bounce` expects (src/bounding_box.rs:61-71) is not modelled. The code does not implement it (the `TODO` at src/bounding_box.rs:41).
- Dynamic dispatch over `Box<dyn Force>` is replaced by the closed datatype `Force`. A force type defined outside the modelled files cannot be expressed.
- `src/vector.rs` defines only the `Vector` struct and `zero`. The model adds only the scalar product that drag uses; no other vector operation is modelled.
- `components_mut` returns an iterator of mutable references. The model has no aliasing references; it gives the sequence of pairs (`Components`) and the effect of writing through one of them (`SetComponent`).
