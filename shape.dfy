/** Shapes: a ring of points, the rings nested inside it (holes), and a lazily
    computed bounding box. Territory shapes carry an owner; border shapes are
    the outlines that also receive a label position (label placement is not
    part of this model). */
module ShapeModel {
  import opened Common

  datatype ShapeKind = TerritoryShape(owner: Owner) | BorderShape

  /** An axis-aligned bounding box. */
  datatype Box = Box(min: Coord, max: Coord)

  /** The corner computeMin stores: the smallest x and, independently, the
      smallest y over the points (what sorting a copy by each coordinate
      and taking the first element yields). */
  function MinCorner(ps: seq<Pt>): Coord
    requires |ps| > 0
  {
    if |ps| == 1 then Coord(ps[0].x, ps[0].y)
    else
      var rest := MinCorner(ps[1..]);
      Coord(if ps[0].x <= rest.x then ps[0].x else rest.x,
            if ps[0].y <= rest.y then ps[0].y else rest.y)
  }

  /** The corner computeMax stores: the largest x and the largest y. */
  function MaxCorner(ps: seq<Pt>): Coord
    requires |ps| > 0
  {
    if |ps| == 1 then Coord(ps[0].x, ps[0].y)
    else
      var rest := MaxCorner(ps[1..]);
      Coord(if ps[0].x >= rest.x then ps[0].x else rest.x,
            if ps[0].y >= rest.y then ps[0].y else rest.y)
  }

  /** Each coordinate of the lower corner is attained by some point, and no
      point lies below or left of it. */
  lemma {:induction false} MinCornerIsLeast(ps: seq<Pt>)
    requires |ps| > 0
    ensures forall i :: 0 <= i < |ps| ==> MinCorner(ps).x <= ps[i].x && MinCorner(ps).y <= ps[i].y
    ensures exists i :: 0 <= i < |ps| && MinCorner(ps).x == ps[i].x
    ensures exists j :: 0 <= j < |ps| && MinCorner(ps).y == ps[j].y
  {
    if |ps| > 1 {
      var tail := ps[1..];
      MinCornerIsLeast(tail);
      var i :| 0 <= i < |tail| && MinCorner(tail).x == tail[i].x;
      var j :| 0 <= j < |tail| && MinCorner(tail).y == tail[j].y;
      var rest := MinCorner(tail);
      assert MinCorner(ps) == Coord(if ps[0].x <= rest.x then ps[0].x else rest.x,
                                    if ps[0].y <= rest.y then ps[0].y else rest.y);
      assert ps[i + 1] == tail[i] && ps[j + 1] == tail[j];
      var wx := if ps[0].x <= rest.x then 0 else i + 1;
      assert 0 <= wx < |ps| && MinCorner(ps).x == ps[wx].x;
      var wy := if ps[0].y <= rest.y then 0 else j + 1;
      assert 0 <= wy < |ps| && MinCorner(ps).y == ps[wy].y;
      forall k | 0 < k < |ps|
        ensures MinCorner(ps).x <= ps[k].x && MinCorner(ps).y <= ps[k].y
      {
        assert ps[k] == tail[k - 1];
      }
    } else {
      assert MinCorner(ps) == Coord(ps[0].x, ps[0].y);
    }
  }

  /** Each coordinate of the upper corner is attained by some point, and no
      point lies above or right of it. */
  lemma {:induction false} MaxCornerIsGreatest(ps: seq<Pt>)
    requires |ps| > 0
    ensures forall i :: 0 <= i < |ps| ==> ps[i].x <= MaxCorner(ps).x && ps[i].y <= MaxCorner(ps).y
    ensures exists i :: 0 <= i < |ps| && MaxCorner(ps).x == ps[i].x
    ensures exists j :: 0 <= j < |ps| && MaxCorner(ps).y == ps[j].y
  {
    if |ps| > 1 {
      var tail := ps[1..];
      MaxCornerIsGreatest(tail);
      var i :| 0 <= i < |tail| && MaxCorner(tail).x == tail[i].x;
      var j :| 0 <= j < |tail| && MaxCorner(tail).y == tail[j].y;
      var rest := MaxCorner(tail);
      assert MaxCorner(ps) == Coord(if ps[0].x >= rest.x then ps[0].x else rest.x,
                                    if ps[0].y >= rest.y then ps[0].y else rest.y);
      assert ps[i + 1] == tail[i] && ps[j + 1] == tail[j];
      var wx := if ps[0].x >= rest.x then 0 else i + 1;
      assert 0 <= wx < |ps| && MaxCorner(ps).x == ps[wx].x;
      var wy := if ps[0].y >= rest.y then 0 else j + 1;
      assert 0 <= wy < |ps| && MaxCorner(ps).y == ps[wy].y;
      forall k | 0 < k < |ps|
        ensures ps[k].x <= MaxCorner(ps).x && ps[k].y <= MaxCorner(ps).y
      {
        assert ps[k] == tail[k - 1];
      }
    } else {
      assert MaxCorner(ps) == Coord(ps[0].x, ps[0].y);
    }
  }

  function BBox(ps: seq<Pt>): Box
    requires |ps| > 0
  {
    Box(MinCorner(ps), MaxCorner(ps))
  }

  /** `a` strictly contains `b`: strict inequality on all four sides. */
  predicate BoxContains(a: Box, b: Box)
  {
    a.min.x < b.min.x && a.min.y < b.min.y && a.max.x > b.max.x && a.max.y > b.max.y
  }

  lemma BoxContainsIrreflexive(a: Box)
    ensures !BoxContains(a, a)
  {
  }

  lemma BoxContainsTransitive(a: Box, b: Box, c: Box)
    requires BoxContains(a, b) && BoxContains(b, c)
    ensures BoxContains(a, c)
  {
  }

  lemma BoxContainsAsymmetric(a: Box, b: Box)
    requires BoxContains(a, b)
    ensures !BoxContains(b, a)
  {
  }

  class Shape {
    const points: seq<Pt>        // clockwise ring, set once the tracer closes it
    var inverse: seq<seq<Pt>>    // rings nested inside this one
    var min: Option<Coord>
    var max: Option<Coord>
    var isContained: bool
    const kind: ShapeKind

    constructor (kind: ShapeKind, points: seq<Pt>)
      ensures this.points == points && inverse == [] && !isContained
      ensures min == None && max == None
      ensures this.kind == kind
    {
      this.points, inverse := points, [];
      min, max := None, None;
      isContained := false;
      this.kind := kind;
    }

    /** The cache agrees with the current points (what a shape built by the
        ring tracer satisfies until its points are changed). */
    ghost predicate CacheFresh()
      reads this`min, this`max
    {
      && |points| > 0
      && (min.Some? ==> min.value == MinCorner(points))
      && (max.Some? ==> max.value == MaxCorner(points))
    }

    method ComputeMin()
      requires |points| > 0
      modifies this`min
      ensures min == Some(MinCorner(points))
    {
      min := Some(MinCorner(points));
    }

    method ComputeMax()
      requires |points| > 0
      modifies this`max
      ensures max == Some(MaxCorner(points))
    {
      max := Some(MaxCorner(points));
    }

    /** getMinX: computes the corner once, then keeps returning the cached
        value even if the points change later. */
    method GetMinX() returns (r: real)
      requires min.Some? || |points| > 0
      modifies this`min
      ensures old(min).Some? ==> min == old(min)
      ensures old(min).None? ==> min == Some(MinCorner(points))
      ensures r == min.value.x
    {
      if min.None? {
        ComputeMin();
      }
      r := min.value.x;
    }

    method GetMinY() returns (r: real)
      requires min.Some? || |points| > 0
      modifies this`min
      ensures old(min).Some? ==> min == old(min)
      ensures old(min).None? ==> min == Some(MinCorner(points))
      ensures r == min.value.y
    {
      if min.None? {
        ComputeMin();
      }
      r := min.value.y;
    }

    method GetMaxX() returns (r: real)
      requires max.Some? || |points| > 0
      modifies this`max
      ensures old(max).Some? ==> max == old(max)
      ensures old(max).None? ==> max == Some(MaxCorner(points))
      ensures r == max.value.x
    {
      if max.None? {
        ComputeMax();
      }
      r := max.value.x;
    }

    method GetMaxY() returns (r: real)
      requires max.Some? || |points| > 0
      modifies this`max
      ensures old(max).Some? ==> max == old(max)
      ensures old(max).None? ==> max == Some(MaxCorner(points))
      ensures r == max.value.y
    {
      if max.None? {
        ComputeMax();
      }
      r := max.value.y;
    }

    /** getMinX on both shapes, in that order. */
    method BothMinX(shape: Shape) returns (a: real, b: real)
      requires CacheFresh() && shape.CacheFresh()
      modifies this`min, shape`min
      ensures min == Some(MinCorner(points)) && shape.min == Some(MinCorner(shape.points))
      ensures a == MinCorner(points).x && b == MinCorner(shape.points).x
    {
      a := GetMinX();
      b := shape.GetMinX();
    }

    /** getMinY on both shapes, once their lower corners are cached. */
    method BothMinY(shape: Shape) returns (a: real, b: real)
      requires |points| > 0 && |shape.points| > 0
      requires min == Some(MinCorner(points)) && shape.min == Some(MinCorner(shape.points))
      modifies this`min, shape`min
      ensures min == old(min) && shape.min == old(shape.min)
      ensures a == MinCorner(points).y && b == MinCorner(shape.points).y
    {
      a := GetMinY();
      b := shape.GetMinY();
    }

    /** getMaxX on both shapes, in that order. */
    method BothMaxX(shape: Shape) returns (a: real, b: real)
      requires CacheFresh() && shape.CacheFresh()
      modifies this`max, shape`max
      ensures max == Some(MaxCorner(points)) && shape.max == Some(MaxCorner(shape.points))
      ensures a == MaxCorner(points).x && b == MaxCorner(shape.points).x
    {
      a := GetMaxX();
      b := shape.GetMaxX();
    }

    /** getMaxY on both shapes, once their upper corners are cached. */
    method BothMaxY(shape: Shape) returns (a: real, b: real)
      requires |points| > 0 && |shape.points| > 0
      requires max == Some(MaxCorner(points)) && shape.max == Some(MaxCorner(shape.points))
      modifies this`max, shape`max
      ensures max == old(max) && shape.max == old(shape.max)
      ensures a == MaxCorner(points).y && b == MaxCorner(shape.points).y
    {
      a := GetMaxY();
      b := shape.GetMaxY();
    }

    /** contains: strict bounding-box containment, evaluated left to right
        with short-circuit, so only the corners it reaches get cached. On
        shapes whose caches agree with their points, the result is
        containment of the points' boxes. */
    method Contains(shape: Shape) returns (b: bool)
      requires CacheFresh() && shape.CacheFresh()
      modifies this`min, this`max, shape`min, shape`max
      ensures CacheFresh() && shape.CacheFresh()
      ensures b == BoxContains(BBox(points), BBox(shape.points))
      ensures old(min).Some? ==> min.Some?
      ensures old(max).Some? ==> max.Some?
      ensures old(shape.min).Some? ==> shape.min.Some?
      ensures old(shape.max).Some? ==> shape.max.Some?
    {
      var a1, b1 := BothMinX(shape);
      if !(a1 < b1) {
        return false;
      }
      var a2, b2 := BothMinY(shape);
      if !(a2 < b2) {
        return false;
      }
      var a3, b3 := BothMaxX(shape);
      if !(a3 > b3) {
        return false;
      }
      var a4, b4 := BothMaxY(shape);
      b := a4 > b4;
    }
  }
}
