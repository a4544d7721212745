/** Axis-aligned bounding boxes, their corner iterator, and the boid and
    grid-cell records of the flocking simulation's world module.

    Coordinates are only copied and selected by this code, never computed
    with, so a `Vec3` is modelled as a triple of mathematical reals; for
    coordinates that are not NaN this changes nothing. */
module World {

  /** The conventional Some/None datatype; `AABBIter.Next` returns one. */
  datatype Option<T> = None | Some(value: T)

  /** A point or vector in world space. */
  datatype Vec3 = Vec3(x: real, y: real, z: real)

  /** An axis-aligned bounding box given by two opposite corners. Nothing in
      the code checks that `min` lies below `max` on every axis. */
  datatype AABB = AABB(min: Vec3, max: Vec3)

  /** A simulated agent: where it is and the volume it occupies. */
  datatype Boid = Boid(position: Vec3, aabb: AABB)

  /** One bucket of the spatial grid: its bounds and the boids inside it. */
  datatype Cell = Cell(min: Vec3, max: Vec3, boidsInside: seq<Boid>)

  /** The number of corners of a box, which is also the iterator's length. */
  const CornerCount := 8

  // ---------------------------------------------------------------------
  // Constructors

  /** `AABB::new`: a box with the given corners, stored unchanged. */
  function NewAABB(min: Vec3, max: Vec3): (b: AABB)
    ensures b.min == min && b.max == max
  {
    AABB(min, max)
  }

  /** `Boid::new`: an agent at `position` with bounding volume `aabb`. */
  function NewBoid(position: Vec3, aabb: AABB): (b: Boid)
    ensures b.position == position && b.aabb == aabb
  {
    Boid(position, aabb)
  }

  /** `Cell::new`: a cell with the given bounds that holds no boids yet. */
  function NewCell(min: Vec3, max: Vec3): (c: Cell)
    ensures c.min == min && c.max == max
    ensures |c.boidsInside| == 0
  {
    Cell(min, max, [])
  }

  // ---------------------------------------------------------------------
  // Corners of a box

  /** The point of `b` that takes, on each axis, the `max` coordinate when
      the flag for that axis is set and the `min` coordinate otherwise. */
  function Pick(b: AABB, maxX: bool, maxY: bool, maxZ: bool): Vec3
  {
    Vec3(if maxX then b.max.x else b.min.x,
         if maxY then b.max.y else b.min.y,
         if maxZ then b.max.z else b.min.z)
  }

  /** `p` is a corner of `b`: each of its coordinates is the box's minimum
      or maximum on that axis. */
  predicate IsCorner(b: AABB, p: Vec3)
  {
    && (p.x == b.min.x || p.x == b.max.x)
    && (p.y == b.min.y || p.y == b.max.y)
    && (p.z == b.min.z || p.z == b.max.z)
  }

  /** The box has a different minimum and maximum on every axis, so that its
      eight corners are eight different points. */
  predicate Proper(b: AABB)
  {
    b.min.x != b.max.x && b.min.y != b.max.y && b.min.z != b.max.z
  }

  /** The corner array that `AABB::points` builds, in the code's order. */
  function Corners(b: AABB): (ps: seq<Vec3>)
    ensures |ps| == CornerCount
    ensures ps[0] == b.min && ps[1] == b.max
    ensures forall k :: 0 <= k < |ps| ==> IsCorner(b, ps[k])
    ensures b.min == b.max ==> forall k :: 0 <= k < |ps| ==> ps[k] == b.min
  {
    [ b.min,
      b.max,
      Vec3(b.min.x, b.min.y, b.max.z),
      Vec3(b.min.x, b.max.y, b.min.z),
      Vec3(b.min.x, b.max.y, b.max.z),
      Vec3(b.max.x, b.min.y, b.max.z),
      Vec3(b.max.x, b.max.y, b.min.z),
      Vec3(b.max.x, b.min.y, b.min.z) ]
  }

  /** The position at which `Corners` lists the min/max choice given by the
      three flags. */
  function ChoiceIndex(maxX: bool, maxY: bool, maxZ: bool): (k: nat)
    ensures k < CornerCount
  {
    match (maxX, maxY, maxZ)
    case (false, false, false) => 0
    case (true, true, true) => 1
    case (false, false, true) => 2
    case (false, true, false) => 3
    case (false, true, true) => 4
    case (true, false, true) => 5
    case (true, true, false) => 6
    case (true, false, false) => 7
  }

  /** Each of the 2^3 min/max choices appears among the corners, at the
      position `ChoiceIndex` gives; when the box is proper it appears there
      and nowhere else. */
  lemma {:induction false} EveryChoiceOnce(b: AABB, maxX: bool, maxY: bool, maxZ: bool)
    returns (k: nat)
    ensures k == ChoiceIndex(maxX, maxY, maxZ)
    ensures k < CornerCount && Corners(b)[k] == Pick(b, maxX, maxY, maxZ)
    ensures Proper(b) ==>
      forall j :: 0 <= j < CornerCount && Corners(b)[j] == Pick(b, maxX, maxY, maxZ) ==> j == k
  {
    k := ChoiceIndex(maxX, maxY, maxZ);
  }

  /** The corners of a proper box are pairwise different. */
  lemma ProperCornersDistinct(b: AABB)
    requires Proper(b)
    ensures forall j, k :: 0 <= j < k < CornerCount ==> Corners(b)[j] != Corners(b)[k]
  {
  }

  /** A point is listed by `Corners` exactly when it is a corner of the box. */
  lemma {:induction false} CornersAreExactlyTheCorners(b: AABB, p: Vec3)
    ensures p in Corners(b) <==> IsCorner(b, p)
  {
    if IsCorner(b, p) {
      var k := EveryChoiceOnce(b, p.x != b.min.x, p.y != b.min.y, p.z != b.min.z);
      assert Corners(b)[k] == p;
    }
  }

  // ---------------------------------------------------------------------
  // The corner iterator

  /** `AABBIter`: the eight corners of a box and a cursor that `Next`
      advances until it reaches the end. */
  class AABBIter {
    const positions: array<Vec3>
    var i: nat

    /** The cursor stays within the fixed eight-element array. */
    ghost predicate Valid()
      reads this
    {
      positions.Length == CornerCount && i <= CornerCount
    }

    /** `AABB::points`: an iterator over the corners of `b`, cursor at 0. */
    constructor Points(b: AABB)
      ensures Valid() && fresh(positions)
      ensures i == 0
      ensures positions[..] == Corners(b)
    {
      var ps := Corners(b);
      positions := new Vec3[CornerCount] (k requires 0 <= k < CornerCount => ps[k]);
      i := 0;
    }

    /** `Iterator::next`: yields the corner under the cursor and advances
        it, or, once all eight are out, yields nothing and stays put. */
    method Next() returns (r: Option<Vec3>)
      requires Valid()
      modifies this`i
      ensures Valid()
      ensures old(i) < CornerCount ==> i == old(i) + 1 && r == Some(positions[old(i)])
      ensures old(i) == CornerCount ==> i == old(i) && r == None
    {
      if i < CornerCount {
        i := i + 1;
        return Some(positions[i - 1]);
      }
      return None;
    }
  }

  /** A caller that makes an iterator with `AABB::points` and then calls
      `next` `n` times: it sees the eight corners in order, then `None`
      from every further call. */
  method NextRepeatedly(b: AABB, n: nat) returns (results: seq<Option<Vec3>>)
    ensures |results| == n
    ensures forall k :: 0 <= k < n && k < CornerCount ==> results[k] == Some(Corners(b)[k])
    ensures forall k :: CornerCount <= k < n ==> results[k] == None
  {
    var it := new AABBIter.Points(b);
    ghost var corners := Corners(b);
    results := [];
    while |results| < n
      invariant it.Valid() && it.positions[..] == corners
      invariant |results| <= n
      invariant it.i == if |results| < CornerCount then |results| else CornerCount
      invariant forall k :: 0 <= k < |results| && k < CornerCount ==> results[k] == Some(corners[k])
      invariant forall k :: CornerCount <= k < |results| ==> results[k] == None
    {
      var r := it.Next();
      results := results + [r];
    }
  }

  /** The unit test of the corner iterator: for the unit box, nine calls of
      `next` give the eight corners in the code's order and then `None`. */
  method TheAabbIterWorks() returns (results: seq<Option<Vec3>>)
    ensures results == [ Some(Vec3(0.0, 0.0, 0.0)), Some(Vec3(1.0, 1.0, 1.0)),
                         Some(Vec3(0.0, 0.0, 1.0)), Some(Vec3(0.0, 1.0, 0.0)),
                         Some(Vec3(0.0, 1.0, 1.0)), Some(Vec3(1.0, 0.0, 1.0)),
                         Some(Vec3(1.0, 1.0, 0.0)), Some(Vec3(1.0, 0.0, 0.0)),
                         None ]
  {
    var aabb := AABB(Vec3(0.0, 0.0, 0.0), Vec3(1.0, 1.0, 1.0));
    var it := new AABBIter.Points(aabb);
    var r0 := it.Next();
    var r1 := it.Next();
    var r2 := it.Next();
    var r3 := it.Next();
    var r4 := it.Next();
    var r5 := it.Next();
    var r6 := it.Next();
    var r7 := it.Next();
    var r8 := it.Next();
    results := [r0, r1, r2, r3, r4, r5, r6, r7, r8];
  }
}

