# Bounding-box corners of the boids world

This project models the geometric core of the world module of a small
flocking ("boids") simulation written in Rust (`src/world.rs`). It covers:

- the axis-aligned bounding box `AABB` and its constructor;
- `AABB::points`, which lays the box's eight corners out in a fixed array;
- `AABBIter`, the iterator over that array, whose `next` moves a cursor
  from 0 to 8 and then yields `None` for good;
- the `Boid` and `Cell` records and their constructors.

Everything sits in one Dafny module, `World` (`world.dfy`). Vectors are
modelled as `Vec3(x, y, z)` over `real`. The code only copies and selects
coordinates and never computes with them, so the `f32` type of the original
changes nothing for coordinates that are not NaN.

The iterator is a class, `World.AABBIter`. Its `positions` field is a
constant reference to an eight-element array, and `i` is the cursor. The
constructor `Points` plays the part of `AABB::points`, and `Next` changes
only the cursor. The array literal itself is the pure function
`World.Corners`. The lemmas about it show three things:

- each corner picks, on every axis, the box's minimum or maximum;
- each of the 2^3 choices appears, and appears exactly once when min and
  max differ on every axis;
- a degenerate box (min equal to max) yields min eight times.

`World.NextRepeatedly` is a caller that builds the iterator and calls
`next` n times. `World.TheAabbIterWorks` is the repository's unit test
stated as a postcondition.

Two facts about the code shape the model:

- `AABB::new` (src/world.rs:44-49) checks nothing, so there is no
  `min <= max` precondition anywhere. Only the uniqueness lemmas assume
  `World.Proper`, which asks for distinct bounds on every axis.
- `AABBIter` cannot be restarted. Once it is exhausted it stays exhausted,
  and a new `points()` call is the only way to enumerate the corners again.

## Model

| member | source | states |
|---|---|---|
| `World.NewAABB` | src/world.rs:44-49 | the box holds exactly the given min and max |
| `World.NewBoid` | src/world.rs:79-84 | the boid holds exactly the given position and bounding box |
| `World.NewCell` | src/world.rs:99-105 | the cell holds the given bounds and no boids |
| `World.Corners` | src/world.rs:52-61 | exactly 8 points; the first is min and the second is max; every point takes the min or max coordinate on each axis; for min == max all eight equal min |
| `World.EveryChoiceOnce` | src/world.rs:52-61 | every min/max choice per axis occurs among the 8 corners at the position `World.ChoiceIndex` assigns it, which fixes the code's whole order as a choice-to-position table; for a box whose bounds differ on every axis it occurs at no other position |
| `World.ProperCornersDistinct` | src/world.rs:52-61 | the 8 corners of a box whose bounds differ on every axis are pairwise distinct |
| `World.CornersAreExactlyTheCorners` | src/world.rs:52-61 | a point is among the listed corners if and only if each of its coordinates is the box's min or max on that axis |
| `World.AABBIter.Points` | src/world.rs:51-63 | the new iterator has a fresh 8-element array holding the corners in the code's order, and its cursor is at 0 |
| `World.AABBIter.Next` | src/world.rs:69-75 | below 8, the cursor advances by exactly one and the corner at the old cursor is returned; at 8, `None` is returned and the cursor stays; the array is never changed |
| `World.NextRepeatedly` | src/world.rs:66-76 | after `points()`, n calls of `next` give the 8 corners in order and then `None` from every later call |
| `World.TheAabbIterWorks` | src/world.rs:133-146 | for the unit box, nine calls of `next` return (0,0,0), (1,1,1), (0,0,1), (0,1,0), (0,1,1), (1,0,1), (1,1,0), (1,0,0) and then `None` |

## Left out

- `Boid::grid_cells` (src/world.rs:86-95): its body is `todo!()`, so there is no behaviour to model.
- `BoidCellsIter` (src/world.rs:20-25): it declares fields but has no methods.
- `World` (src/world.rs:34-41, 109-123): the struct has no live methods, because its `impl` block is commented out. The calls in src/lib.rs (`World::new`, `update`, `fill_instance_buffer`, `add_boid`) refer to operations that do not exist in src/world.rs. Cell hashing, membership and reconciliation are therefore not modelled.
- The rendering, camera, UI and event-loop files (src/renderer.rs, src/camera.rs, src/imgui.rs, src/main.rs, src/lib.rs) are graphics and windowing plumbing and floating-point camera math. They are outside this model.
- `f32` coordinates are modelled as `real`. This is exact for this code, which only copies values, but NaN and signed zero are not modelled.
