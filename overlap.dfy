/** checkOverlap: the shapes of one kind are sorted by the x of their
    bounding box's lower corner, then every shape that is not yet marked as
    contained takes every shape it strictly contains as a hole and marks it.
    The shapes that were never marked are returned, in sorted order. */
module Overlap {
  import opened Common
  import opened ShapeModel

  // ---------------------------------------------------------------------
  // The sort: a stable sort of positions by key

  /** Position `p` goes before position `q`: a smaller key, or an equal key
      and an earlier position (Array.prototype.sort is stable). */
  predicate Before(keys: seq<real>, p: int, q: int)
    requires 0 <= p < |keys| && 0 <= q < |keys|
  {
    keys[p] < keys[q] || (keys[p] == keys[q] && p < q)
  }

  predicate InRange(s: seq<int>, n: int)
  {
    forall i :: 0 <= i < |s| ==> 0 <= s[i] < n
  }

  predicate StablySorted(s: seq<int>, keys: seq<real>)
    requires InRange(s, |keys|)
  {
    forall i, j :: 0 <= i < j < |s| ==> Before(keys, s[i], s[j])
  }

  function Insert(p: int, s: seq<int>, keys: seq<real>): (r: seq<int>)
    requires 0 <= p < |keys| && InRange(s, |keys|) && p !in s
    ensures |r| == |s| + 1 && InRange(r, |keys|)
    ensures forall e :: e in r <==> e == p || e in s
    ensures r[0] == p || (|s| > 0 && r[0] == s[0])
    ensures StablySorted(s, keys) ==> StablySorted(r, keys)
  {
    if s == [] then [p]
    else if Before(keys, p, s[0]) then [p] + s
    else
      assert s == [s[0]] + s[1..];
      var rest := Insert(p, s[1..], keys);
      assert StablySorted(s, keys) ==> StablySorted([s[0]] + rest, keys) by {
        if StablySorted(s, keys) {
          assert Before(keys, s[0], rest[0]);
        }
      }
      [s[0]] + rest
  }

  /** The positions `lo .. |keys|-1`, stably sorted by key. */
  function SortFrom(lo: nat, keys: seq<real>): (r: seq<int>)
    requires lo <= |keys|
    ensures |r| == |keys| - lo && InRange(r, |keys|)
    ensures forall e :: e in r <==> lo <= e < |keys|
    ensures StablySorted(r, keys)
    decreases |keys| - lo
  {
    if lo == |keys| then [] else Insert(lo, SortFrom(lo + 1, keys), keys)
  }

  // ---------------------------------------------------------------------
  // Containment among the sorted boxes

  /** Box `i` does not start to the right of box `j`. */
  predicate NotAfter(bs: seq<Box>, i: int, j: int)
    requires 0 <= i < |bs| && 0 <= j < |bs|
  {
    bs[i].min.x <= bs[j].min.x
  }

  /** The boxes are in ascending order of their lower x. */
  predicate SortedBoxes(bs: seq<Box>)
  {
    forall i, j :: 0 <= i < j < |bs| ==> NotAfter(bs, i, j)
  }

  /** Box `k` lies strictly inside one of the first `n` boxes. */
  predicate ContainedIn(bs: seq<Box>, n: int, k: int)
    requires 0 <= k < |bs| && n <= |bs|
    decreases n
  {
    n > 0 && (BoxContains(bs[n - 1], bs[k]) || ContainedIn(bs, n - 1, k))
  }

  /** Box `k` lies strictly inside some box of the list. */
  predicate ContainedAny(bs: seq<Box>, k: int)
    requires 0 <= k < |bs|
  {
    ContainedIn(bs, |bs|, k)
  }

  /** Box `k` lies inside no box of the list. */
  predicate Top(bs: seq<Box>, k: int)
  {
    0 <= k < |bs| && !ContainedAny(bs, k)
  }

  /** Box `k` lies inside one of the top boxes among the first `i`. */
  predicate ContainedBefore(bs: seq<Box>, i: int, k: int)
    requires 0 <= k < |bs| && i <= |bs|
    decreases i
  {
    i > 0 && ((Top(bs, i - 1) && BoxContains(bs[i - 1], bs[k])) || ContainedBefore(bs, i - 1, k))
  }

  lemma {:induction false} ContainedInIff(bs: seq<Box>, n: int, k: int)
    requires 0 <= k < |bs| && 0 <= n <= |bs|
    ensures ContainedIn(bs, n, k) <==> exists t :: 0 <= t < n && BoxContains(bs[t], bs[k])
    decreases n
  {
    if n > 0 {
      ContainedInIff(bs, n - 1, k);
    }
  }

  lemma {:induction false} ContainedBeforeIff(bs: seq<Box>, i: int, k: int)
    requires 0 <= k < |bs| && 0 <= i <= |bs|
    ensures ContainedBefore(bs, i, k) <==> exists t :: 0 <= t < i && Top(bs, t) && BoxContains(bs[t], bs[k])
    decreases i
  {
    if i > 0 {
      ContainedBeforeIff(bs, i - 1, k);
    }
  }

  /** In ascending minX order, a container always comes first. */
  lemma ContainerEarlier(bs: seq<Box>, t: int, k: int)
    requires SortedBoxes(bs) && 0 <= t < |bs| && 0 <= k < |bs|
    requires BoxContains(bs[t], bs[k])
    ensures t < k
  {
    assert k < t ==> NotAfter(bs, k, t);
  }

  /** A contained box lies inside a top box that comes before it. */
  lemma {:induction false} ContainedByTop(bs: seq<Box>, k: int)
    requires SortedBoxes(bs) && 0 <= k < |bs| && ContainedAny(bs, k)
    ensures exists t :: 0 <= t < k && Top(bs, t) && BoxContains(bs[t], bs[k])
    decreases k
  {
    ContainedInIff(bs, |bs|, k);
    var c :| 0 <= c < |bs| && BoxContains(bs[c], bs[k]);
    ContainerEarlier(bs, c, k);
    if !Top(bs, c) {
      ContainedByTop(bs, c);
      var t :| 0 <= t < c && Top(bs, t) && BoxContains(bs[t], bs[c]);
      BoxContainsTransitive(bs[t], bs[c], bs[k]);
    }
  }

  /** Being inside a top box and being inside any box are the same: the
      first is the second with the containers it can use narrowed to the
      top ones. */
  lemma ContainedBeforeAll(bs: seq<Box>, k: int)
    requires SortedBoxes(bs) && 0 <= k < |bs|
    ensures ContainedBefore(bs, k, k) <==> ContainedAny(bs, k)
    ensures ContainedBefore(bs, |bs|, k) <==> ContainedAny(bs, k)
  {
    ContainedBeforeIff(bs, k, k);
    ContainedBeforeIff(bs, |bs|, k);
    ContainedInIff(bs, |bs|, k);
    if ContainedAny(bs, k) {
      ContainedByTop(bs, k);
    }
  }

  /** The positions below `j` whose boxes box `m` strictly contains, in
      ascending order. */
  ghost function InsideIndices(bs: seq<Box>, m: int, j: nat): seq<int>
    requires 0 <= m < |bs| && j <= |bs|
  {
    if j == 0 then [] else InsideIndices(bs, m, j - 1) + (if BoxContains(bs[m], bs[j - 1]) then [j - 1] else [])
  }

  /** The positions listed go strictly up. */
  ghost predicate Ascending(idx: seq<int>)
  {
    forall a, b :: 0 <= a < b < |idx| ==> idx[a] < idx[b]
  }

  /** Appending a position above every listed one keeps the list ascending. */
  lemma AscendingAppend(idx: seq<int>, x: int)
    requires Ascending(idx) && forall k :: k in idx ==> k < x
    ensures Ascending(idx + [x])
  {
    var r := idx + [x];
    forall a, b | 0 <= a < b < |r| ensures r[a] < r[b] {
      assert r[a] == idx[a] && idx[a] in idx;
      if b < |idx| {
        assert r[b] == idx[b];
      }
    }
  }

  /** InsideIndices lists, in ascending order, exactly the positions below
      `j` of the boxes that box `m` contains. */
  lemma {:induction false} InsideIndicesExact(bs: seq<Box>, m: int, j: nat)
    requires 0 <= m < |bs| && j <= |bs|
    ensures Ascending(InsideIndices(bs, m, j))
    ensures forall k :: k in InsideIndices(bs, m, j) <==> 0 <= k < j && BoxContains(bs[m], bs[k])
  {
    if j > 0 {
      InsideIndicesExact(bs, m, j - 1);
      var idx := InsideIndices(bs, m, j - 1);
      if BoxContains(bs[m], bs[j - 1]) {
        assert InsideIndices(bs, m, j) == idx + [j - 1];
        AscendingAppend(idx, j - 1);
      } else {
        assert InsideIndices(bs, m, j) == idx;
      }
    }
  }

  /** The positions below `i` whose boxes lie inside no box, in ascending
      order. */
  ghost function TopIndices(bs: seq<Box>, i: nat): seq<int>
    requires i <= |bs|
  {
    if i == 0 then [] else TopIndices(bs, i - 1) + (if Top(bs, i - 1) then [i - 1] else [])
  }

  /** TopIndices lists, in ascending order, exactly the positions below `i`
      of the boxes that lie inside no box. */
  lemma {:induction false} TopIndicesExact(bs: seq<Box>, i: nat)
    requires i <= |bs|
    ensures Ascending(TopIndices(bs, i))
    ensures forall k :: k in TopIndices(bs, i) <==> 0 <= k < i && Top(bs, k)
  {
    if i > 0 {
      TopIndicesExact(bs, i - 1);
      var idx := TopIndices(bs, i - 1);
      if Top(bs, i - 1) {
        assert TopIndices(bs, i) == idx + [i - 1];
        AscendingAppend(idx, i - 1);
      } else {
        assert TopIndices(bs, i) == idx;
      }
    }
  }

  /** The elements of `s` at the positions `idx`, in that order. */
  function Gather<T>(s: seq<T>, idx: seq<int>): (r: seq<T>)
    requires InRange(idx, |s|)
    ensures |r| == |idx| && forall a :: 0 <= a < |idx| ==> r[a] == s[idx[a]]
  {
    if idx == [] then [] else Gather(s, idx[..|idx| - 1]) + [s[idx[|idx| - 1]]]
  }

  lemma GatherSnoc<T>(s: seq<T>, idx: seq<int>, i: int)
    requires InRange(idx, |s|) && 0 <= i < |s|
    ensures Gather(s, idx + [i]) == Gather(s, idx) + [s[i]]
  {
    assert (idx + [i])[..|idx|] == idx;
  }

  /** The rings of the first `j` shapes that box `m` strictly contains, in
      list order: what the inner loop pushes onto the holes of shape `m`. */
  function Holes(ps: seq<seq<Pt>>, bs: seq<Box>, m: int, j: nat): seq<seq<Pt>>
    requires |ps| == |bs| && 0 <= m < |bs| && j <= |bs|
  {
    if j == 0 then []
    else Holes(ps, bs, m, j - 1) + (if BoxContains(bs[m], bs[j - 1]) then [ps[j - 1]] else [])
  }

  /** The top shapes among the first `i`, in list order: what the outer
      loop returns. */
  function Tops<T>(s: seq<T>, bs: seq<Box>, i: nat): seq<T>
    requires |s| == |bs| && i <= |s|
  {
    if i == 0 then [] else Tops(s, bs, i - 1) + (if Top(bs, i - 1) then [s[i - 1]] else [])
  }

  /** The holes are exactly the rings whose boxes `m` contains, in order. */
  lemma {:induction false} HolesAreInside(ps: seq<seq<Pt>>, bs: seq<Box>, m: int, j: nat)
    requires |ps| == |bs| && 0 <= m < |bs| && j <= |bs|
    ensures InRange(InsideIndices(bs, m, j), |ps|)
    ensures Holes(ps, bs, m, j) == Gather(ps, InsideIndices(bs, m, j))
  {
    if j > 0 {
      HolesAreInside(ps, bs, m, j - 1);
      HolesStep(ps, bs, m, j - 1);
    }
  }

  /** One more candidate ring keeps the holes gathered from their indices. */
  lemma HolesStep(ps: seq<seq<Pt>>, bs: seq<Box>, m: int, i: nat)
    requires |ps| == |bs| && 0 <= m < |bs| && i < |bs|
    requires InRange(InsideIndices(bs, m, i), |ps|)
    requires Holes(ps, bs, m, i) == Gather(ps, InsideIndices(bs, m, i))
    ensures InRange(InsideIndices(bs, m, i + 1), |ps|)
    ensures Holes(ps, bs, m, i + 1) == Gather(ps, InsideIndices(bs, m, i + 1))
  {
    var idx := InsideIndices(bs, m, i);
    if BoxContains(bs[m], bs[i]) {
      assert InsideIndices(bs, m, i + 1) == idx + [i];
      GatherSnoc(ps, idx, i);
    } else {
      assert InsideIndices(bs, m, i + 1) == idx;
      assert Holes(ps, bs, m, i + 1) == Holes(ps, bs, m, i);
    }
  }

  /** The returned shapes are exactly the top ones, in order. */
  lemma {:induction false} TopsAreTop<T>(s: seq<T>, bs: seq<Box>, i: nat)
    requires |s| == |bs| && i <= |s|
    ensures InRange(TopIndices(bs, i), |s|)
    ensures Tops(s, bs, i) == Gather(s, TopIndices(bs, i))
  {
    if i > 0 {
      TopsAreTop(s, bs, i - 1);
      TopsStep(s, bs, i - 1);
    }
  }

  /** One more candidate shape keeps the tops gathered from their indices. */
  lemma TopsStep<T>(s: seq<T>, bs: seq<Box>, i: nat)
    requires |s| == |bs| && i < |s|
    requires InRange(TopIndices(bs, i), |s|)
    requires Tops(s, bs, i) == Gather(s, TopIndices(bs, i))
    ensures InRange(TopIndices(bs, i + 1), |s|)
    ensures Tops(s, bs, i + 1) == Gather(s, TopIndices(bs, i + 1))
  {
    var idx := TopIndices(bs, i);
    if Top(bs, i) {
      assert TopIndices(bs, i + 1) == idx + [i];
      GatherSnoc(s, idx, i);
    } else {
      assert TopIndices(bs, i + 1) == idx;
      assert Tops(s, bs, i + 1) == Tops(s, bs, i);
    }
  }

  // ---------------------------------------------------------------------
  // The shapes

  function MinXs(ps: seq<seq<Pt>>): (keys: seq<real>)
    requires forall k :: 0 <= k < |ps| ==> |ps[k]| > 0
    ensures |keys| == |ps| && forall k :: 0 <= k < |ps| ==> keys[k] == MinCorner(ps[k]).x
  {
    seq(|ps|, k requires 0 <= k < |ps| => MinCorner(ps[k]).x)
  }

  function Boxes(ps: seq<seq<Pt>>): (bs: seq<Box>)
    requires forall k :: 0 <= k < |ps| ==> |ps[k]| > 0
    ensures |bs| == |ps| && forall k :: 0 <= k < |ps| ==> bs[k] == BBox(ps[k])
  {
    seq(|ps|, k requires 0 <= k < |ps| => BBox(ps[k]))
  }

  ghost function PointsOf(s: seq<Shape>): (ps: seq<seq<Pt>>)
    ensures |ps| == |s| && forall k :: 0 <= k < |s| ==> ps[k] == s[k].points
  {
    if s == [] then [] else [s[0].points] + PointsOf(s[1..])
  }

  /** The shapes at positions `a` and `b` are different objects. */
  ghost predicate Apart(s: seq<Shape>, a: int, b: int)
    requires 0 <= a < |s| && 0 <= b < |s|
  {
    s[a] != s[b]
  }

  /** No shape object occurs twice in the list (the inner and outer loops
      rely on it: marking one shape never touches another). */
  ghost predicate Unaliased(s: seq<Shape>)
  {
    forall a, b :: 0 <= a < b < |s| ==> Apart(s, a, b)
  }

  /** In an unaliased list, the shape at `j` is no other position's. */
  lemma UnaliasedAt(s: seq<Shape>, j: int)
    requires Unaliased(s) && 0 <= j < |s|
    ensures forall k :: 0 <= k < |s| && k != j ==> s[k] != s[j]
  {
    forall k | 0 <= k < |s| && k != j
      ensures s[k] != s[j]
    {
      if k < j {
        assert Apart(s, k, j);
      } else {
        assert Apart(s, j, k);
      }
    }
  }

  /** The sort keys, read with getMinX: every shape's lower corner gets
      cached. */
  method MinKeys(shapes: seq<Shape>) returns (keys: seq<real>)
    requires forall k :: 0 <= k < |shapes| ==> shapes[k].CacheFresh()
    modifies shapes`min
    ensures |keys| == |shapes|
    ensures forall k :: 0 <= k < |shapes| ==>
      && shapes[k].CacheFresh()
      && shapes[k].min == Some(MinCorner(shapes[k].points))
      && keys[k] == MinCorner(shapes[k].points).x
  {
    keys := [];
    for p := 0 to |shapes|
      invariant |keys| == p
      invariant forall k :: 0 <= k < |shapes| ==> shapes[k].CacheFresh()
      invariant forall k :: 0 <= k < p ==>
        shapes[k].min == Some(MinCorner(shapes[k].points)) && keys[k] == MinCorner(shapes[k].points).x
    {
      var x := shapes[p].GetMinX();
      keys := keys + [x];
    }
  }

  lemma AppendAssoc<T>(a: seq<T>, b: seq<T>, c: seq<T>)
    ensures (a + b) + c == a + (b + c)
  {
  }

  /** One step of the inner loop: `main` tests `shape` and, when it
      contains it, takes its ring as a hole and marks it. */
  method TestAndMark(main: Shape, shape: Shape) returns (c: bool)
    requires main.CacheFresh() && shape.CacheFresh()
    modifies main`min, main`max, main`inverse, shape`min, shape`max, shape`isContained
    ensures main.CacheFresh() && shape.CacheFresh()
    ensures c == BoxContains(BBox(main.points), BBox(shape.points))
    ensures old(main.min).Some? ==> main.min.Some?
    ensures old(main.max).Some? ==> main.max.Some?
    ensures old(shape.min).Some? ==> shape.min.Some?
    ensures old(shape.max).Some? ==> shape.max.Some?
    ensures main.inverse == old(main.inverse) + (if c then [shape.points] else [])
    ensures shape.isContained == (old(shape.isContained) || c)
    ensures main != shape ==> shape.inverse == old(shape.inverse)
    ensures main != shape ==> main.isContained == old(main.isContained)
  {
    c := main.Contains(shape);
    if c {
      main.inverse := main.inverse + [shape.points];
      shape.isContained := true;
    }
  }

  /** The same step, stated over the whole list: only the shape at `j` can
      become marked, and only the shape at `m` gains a hole. */
  method MarkStep(sorted: seq<Shape>, m: int, j: int, ghost ps: seq<seq<Pt>>, ghost bs: seq<Box>)
    requires 0 <= m < |sorted| && 0 <= j < |sorted| && |ps| == |sorted| && |bs| == |sorted|
    requires forall k :: 0 <= k < |sorted| ==>
      sorted[k].points == ps[k] && sorted[k].CacheFresh() && bs[k] == BBox(ps[k])
    requires Unaliased(sorted)
    modifies {sorted[m], sorted[j]}`min, {sorted[m], sorted[j]}`max
    modifies {sorted[m]}`inverse, {sorted[j]}`isContained
    ensures forall k :: 0 <= k < |sorted| ==> sorted[k].CacheFresh()
    ensures forall k :: 0 <= k < |sorted| ==> old(sorted[k].min).Some? ==> sorted[k].min.Some?
    ensures forall k :: 0 <= k < |sorted| ==> old(sorted[k].max).Some? ==> sorted[k].max.Some?
    ensures forall k :: 0 <= k < |sorted| ==>
      sorted[k].isContained == (old(sorted[k].isContained) || (k == j && BoxContains(bs[m], bs[j])))
    ensures sorted[m].inverse == old(sorted[m].inverse) + (if BoxContains(bs[m], bs[j]) then [ps[j]] else [])
    ensures forall k :: 0 <= k < |sorted| && k != m ==> sorted[k].inverse == old(sorted[k].inverse)
  {
    UnaliasedAt(sorted, j);
    UnaliasedAt(sorted, m);
    var c := TestAndMark(sorted[m], sorted[j]);
  }

  /** The inner loop for the shape at `m`: it takes every shape it strictly
      contains as a hole and marks it. */
  method MarkContained(sorted: seq<Shape>, m: int, ghost ps: seq<seq<Pt>>, ghost bs: seq<Box>)
    requires 0 <= m < |sorted| && |ps| == |sorted| && |bs| == |sorted|
    requires forall k :: 0 <= k < |sorted| ==>
      sorted[k].points == ps[k] && sorted[k].CacheFresh() && bs[k] == BBox(ps[k])
    requires Unaliased(sorted)
    modifies sorted`min, sorted`max, sorted`isContained, sorted`inverse
    ensures forall k :: 0 <= k < |sorted| ==> sorted[k].CacheFresh()
    ensures forall k :: 0 <= k < |sorted| ==> old(sorted[k].min).Some? ==> sorted[k].min.Some?
    ensures forall k :: 0 <= k < |sorted| ==> old(sorted[k].max).Some? ==> sorted[k].max.Some?
    ensures forall k :: 0 <= k < |sorted| ==>
      sorted[k].isContained == (old(sorted[k].isContained) || BoxContains(bs[m], bs[k]))
    ensures sorted[m].inverse == old(sorted[m].inverse) + Holes(ps, bs, m, |sorted|)
    ensures forall k :: 0 <= k < |sorted| && k != m ==> sorted[k].inverse == old(sorted[k].inverse)
  {
    assert Holes(ps, bs, m, 0) == [];
    for j := 0 to |sorted|
      invariant forall k :: 0 <= k < |sorted| ==>
        && sorted[k].CacheFresh()
        && (old(sorted[k].min).Some? ==> sorted[k].min.Some?)
        && (old(sorted[k].max).Some? ==> sorted[k].max.Some?)
        && sorted[k].isContained == (old(sorted[k].isContained) || (k < j && BoxContains(bs[m], bs[k])))
        && (k != m ==> sorted[k].inverse == old(sorted[k].inverse))
      invariant sorted[m].inverse == old(sorted[m].inverse) + Holes(ps, bs, m, j)
    {
      AppendAssoc(old(sorted[m].inverse), Holes(ps, bs, m, j),
                  if BoxContains(bs[m], bs[j]) then [ps[j]] else []);
      MarkStep(sorted, m, j, ps, bs);
    }
  }

  /** The state of the shape at `k` after the first `i` passes of the outer
      loop. */
  ghost predicate PassedAt(sorted: seq<Shape>, ps: seq<seq<Pt>>, bs: seq<Box>, i: int, k: int)
    requires |ps| == |sorted| && |bs| == |sorted| && 0 <= i <= |sorted|
    requires 0 <= k < |sorted|
    reads {sorted[k]}`min, {sorted[k]}`max, {sorted[k]}`isContained, {sorted[k]}`inverse
  {
    && sorted[k].CacheFresh() && sorted[k].min.Some?
    && (k < i ==> sorted[k].max.Some?)
    && sorted[k].isContained == ContainedBefore(bs, i, k)
    && sorted[k].inverse == (if k < i && Top(bs, k) then Holes(ps, bs, k, |sorted|) else [])
  }

  /** The state after the first `i` passes of the outer loop. */
  ghost predicate Passed(sorted: seq<Shape>, ps: seq<seq<Pt>>, bs: seq<Box>, i: int)
    requires |ps| == |sorted| && |bs| == |sorted| && 0 <= i <= |sorted|
    reads sorted`min, sorted`max, sorted`isContained, sorted`inverse
  {
    forall k :: 0 <= k < |sorted| ==> PassedAt(sorted, ps, bs, i, k)
  }

  /** One pass of the outer loop: compute the shape's corners and, when it
      is not marked, let it mark what it contains. */
  method ResolveStep(sorted: seq<Shape>, i: int, ghost ps: seq<seq<Pt>>, ghost bs: seq<Box>)
    returns (isTop: bool)
    requires 0 <= i < |sorted| && |ps| == |sorted| && |bs| == |sorted|
    requires forall k :: 0 <= k < |sorted| ==> sorted[k].points == ps[k] && |ps[k]| > 0 && bs[k] == BBox(ps[k])
    requires Unaliased(sorted) && SortedBoxes(bs)
    requires Passed(sorted, ps, bs, i)
    modifies sorted`min, sorted`max, sorted`isContained, sorted`inverse
    ensures Passed(sorted, ps, bs, i + 1)
    ensures isTop == Top(bs, i)
  {
    ContainedBeforeAll(bs, i);
    forall k | 0 <= k < |sorted|
      ensures sorted[k].CacheFresh() && sorted[k].points == ps[k]
    {
      assert PassedAt(sorted, ps, bs, i, k);
    }
    assert PassedAt(sorted, ps, bs, i, i);
    UnaliasedAt(sorted, i);
    var main := sorted[i];
    main.ComputeMax();
    main.ComputeMin();
    isTop := !main.isContained;
    if isTop {
      MarkContained(sorted, i, ps, bs);
    }
    ghost var next := i + 1;
    forall k | 0 <= k < |sorted|
      ensures PassedAt(sorted, ps, bs, next, k)
    {
      assert old(PassedAt(sorted, ps, bs, i, k));
    }
  }

  /** The outer loop over the sorted shapes. */
  method Resolve(sorted: seq<Shape>, ghost ps: seq<seq<Pt>>, ghost bs: seq<Box>)
    returns (top: seq<Shape>)
    requires |ps| == |sorted| && |bs| == |sorted|
    requires forall k :: 0 <= k < |sorted| ==>
      && sorted[k].points == ps[k] && sorted[k].CacheFresh() && bs[k] == BBox(ps[k])
      && sorted[k].min.Some? && !sorted[k].isContained && sorted[k].inverse == []
    requires Unaliased(sorted) && SortedBoxes(bs)
    modifies sorted`min, sorted`max, sorted`isContained, sorted`inverse
    ensures top == Tops(sorted, bs, |sorted|)
    ensures forall k :: 0 <= k < |sorted| ==>
      && sorted[k].CacheFresh() && sorted[k].min.Some? && sorted[k].max.Some?
      && sorted[k].isContained == ContainedAny(bs, k)
      && sorted[k].inverse == (if Top(bs, k) then Holes(ps, bs, k, |sorted|) else [])
  {
    top := [];
    assert Passed(sorted, ps, bs, 0) by {
      forall k | 0 <= k < |sorted| ensures PassedAt(sorted, ps, bs, 0, k) {
        assert !ContainedBefore(bs, 0, k);
      }
    }
    for i := 0 to |sorted|
      invariant Passed(sorted, ps, bs, i)
      invariant top == Tops(sorted, bs, i)
    {
      var isTop := ResolveStep(sorted, i, ps, bs);
      if isTop {
        top := top + [sorted[i]];
      }
    }
    PassedAll(sorted, ps, bs);
  }

  /** After the last pass every shape has its corners, its mark and its
      holes. */
  lemma PassedAll(sorted: seq<Shape>, ps: seq<seq<Pt>>, bs: seq<Box>)
    requires |ps| == |sorted| && |bs| == |sorted| && SortedBoxes(bs)
    requires Passed(sorted, ps, bs, |sorted|)
    ensures forall k :: 0 <= k < |sorted| ==>
      && sorted[k].CacheFresh() && sorted[k].min.Some? && sorted[k].max.Some?
      && sorted[k].isContained == ContainedAny(bs, k)
      && sorted[k].inverse == (if Top(bs, k) then Holes(ps, bs, k, |sorted|) else [])
  {
    forall k | 0 <= k < |sorted|
      ensures && sorted[k].CacheFresh() && sorted[k].min.Some? && sorted[k].max.Some?
              && sorted[k].isContained == ContainedAny(bs, k)
              && sorted[k].inverse == (if Top(bs, k) then Holes(ps, bs, k, |sorted|) else [])
    {
      assert PassedAt(sorted, ps, bs, |sorted|, k);
      ContainedBeforeAll(bs, k);
    }
  }

  /** The sort at the head of checkOverlap: the shapes in ascending order of
      their lower x, equal keys keeping their list order (`order[i]` is the
      position `sorted[i]` came from). Reading the keys caches every lower
      corner. */
  method SortShapes(shapes: seq<Shape>) returns (sorted: seq<Shape>, order: seq<int>)
    requires forall k :: 0 <= k < |shapes| ==> shapes[k].CacheFresh()
    requires Unaliased(shapes)
    modifies shapes`min
    ensures |order| == |shapes| && InRange(order, |shapes|)
    ensures forall p :: 0 <= p < |shapes| ==> p in order
    ensures forall k :: 0 <= k < |shapes| ==> |shapes[k].points| > 0
    ensures StablySorted(order, MinXs(PointsOf(shapes)))
    ensures |sorted| == |shapes| && forall i :: 0 <= i < |sorted| ==> sorted[i] == shapes[order[i]]
    ensures forall k :: 0 <= k < |shapes| ==> shapes[k].CacheFresh() && shapes[k].min.Some?
    ensures Unaliased(sorted)
    ensures SortedBoxes(Boxes(PointsOf(sorted)))
    ensures forall i :: 0 <= i < |sorted| ==>
      sorted[i].inverse == old(sorted[i].inverse) && sorted[i].isContained == old(sorted[i].isContained)
  {
    var keys := MinKeys(shapes);
    order := SortFrom(0, keys);
    sorted := seq(|order|, i requires 0 <= i < |order| => shapes[order[i]]);
    assert keys == MinXs(PointsOf(shapes));
    SortedApart(shapes, order, sorted);
  }

  /** Reordering unaliased shapes by their lower x leaves them unaliased
      with their boxes in ascending order of lower x. */
  lemma SortedApart(shapes: seq<Shape>, order: seq<int>, sorted: seq<Shape>)
    requires forall k :: 0 <= k < |shapes| ==> |shapes[k].points| > 0
    requires Unaliased(shapes) && |order| == |shapes| && InRange(order, |shapes|)
    requires StablySorted(order, MinXs(PointsOf(shapes)))
    requires |sorted| == |shapes| && forall i :: 0 <= i < |sorted| ==> sorted[i] == shapes[order[i]]
    ensures Unaliased(sorted) && SortedBoxes(Boxes(PointsOf(sorted)))
  {
    var keys := MinXs(PointsOf(shapes));
    var bs := Boxes(PointsOf(sorted));
    forall a, b | 0 <= a < b < |sorted|
      ensures Apart(sorted, a, b) && NotAfter(bs, a, b)
    {
      assert Before(keys, order[a], order[b]);
      if order[a] < order[b] {
        assert Apart(shapes, order[a], order[b]);
      } else {
        assert Apart(shapes, order[b], order[a]);
      }
    }
  }

  /** checkOverlap on the shapes of one kind: returns them sorted (with the
      positions they came from), and the top ones. */
  method CheckOverlap(shapes: seq<Shape>) returns (sorted: seq<Shape>, top: seq<Shape>, ghost order: seq<int>)
    requires forall k :: 0 <= k < |shapes| ==> shapes[k].CacheFresh() && !shapes[k].isContained && shapes[k].inverse == []
    requires Unaliased(shapes)
    modifies shapes`min, shapes`max, shapes`isContained, shapes`inverse
    ensures |order| == |shapes| && InRange(order, |shapes|)
    ensures forall p :: 0 <= p < |shapes| ==> p in order
    ensures forall k :: 0 <= k < |shapes| ==> |shapes[k].points| > 0
    ensures StablySorted(order, MinXs(PointsOf(shapes)))
    ensures |sorted| == |shapes| && forall i :: 0 <= i < |sorted| ==> sorted[i] == shapes[order[i]]
    ensures var ps := PointsOf(sorted); var bs := Boxes(ps);
      && top == Tops(sorted, bs, |sorted|)
      && forall k :: 0 <= k < |sorted| ==>
        && sorted[k].isContained == ContainedAny(bs, k)
        && sorted[k].inverse == (if Top(bs, k) then Holes(ps, bs, k, |sorted|) else [])
        && sorted[k].min == Some(bs[k].min) && sorted[k].max == Some(bs[k].max)
  {
    sorted, order := SortShapes(shapes);
    ghost var ps := PointsOf(sorted);
    ghost var bs := Boxes(ps);
    forall k | 0 <= k < |sorted|
      ensures sorted[k].points == ps[k] && bs[k] == BBox(ps[k])
      ensures sorted[k].inverse == [] && !sorted[k].isContained
    {
      assert sorted[k] == shapes[order[k]];
    }
    top := Resolve(sorted, ps, bs);
    CornersCached(sorted, bs);
    assert ps == PointsOf(sorted) && bs == Boxes(ps);
  }

  /** Fresh, filled caches hold the corners of the shapes' boxes. */
  lemma CornersCached(sorted: seq<Shape>, bs: seq<Box>)
    requires |bs| == |sorted|
    requires forall k :: 0 <= k < |sorted| ==>
      sorted[k].CacheFresh() && sorted[k].min.Some? && sorted[k].max.Some? && bs[k] == BBox(sorted[k].points)
    ensures forall k :: 0 <= k < |sorted| ==> sorted[k].min == Some(bs[k].min) && sorted[k].max == Some(bs[k].max)
  {
  }
}
