/** A sector's territory: the three fragment maps the marching-squares pass
    fills (`add`), clears (`reset`) and turns into shapes (`computeShapes`
    with `buildShapes`/`buildBorder`). */
module Territory {
  import opened Common
  import opened Fragments
  import opened ShapeModel
  import opened Rings
  import opened Overlap

  /** `sorted` holds one shape of kind `kind` per ring of `rings`, stably
      ordered by lower x: `order[i]` is the ring `sorted[i]` holds. */
  ghost predicate Ordered(sorted: seq<Shape>, order: seq<int>, rings: seq<seq<Pt>>, kind: ShapeKind)
  {
    && |sorted| == |rings| && |order| == |rings| && InRange(order, |rings|)
    && (forall p :: 0 <= p < |rings| ==> p in order)
    && (forall k :: 0 <= k < |rings| ==> |rings[k]| > 0)
    && StablySorted(order, MinXs(rings))
    && (forall i :: 0 <= i < |sorted| ==> sorted[i].kind == kind && sorted[i].points == rings[order[i]])
  }

  /** `top` is what checkOverlap returns for the shapes `sorted`: the ones
      whose box no other box strictly contains, in list order. */
  ghost predicate Survivors(top: seq<Shape>, sorted: seq<Shape>)
  {
    && (forall k :: 0 <= k < |sorted| ==> |sorted[k].points| > 0)
    && top == Tops(sorted, Boxes(PointsOf(sorted)), |sorted|)
  }

  /** The shapes checkOverlap returns, in the order it sorted them, are
      the traced rings stably ordered by lower x. */
  lemma SortedOrdered(shapes: seq<Shape>, sorted: seq<Shape>, order: seq<int>,
                      rings: seq<seq<Pt>>, kind: ShapeKind)
    requires PointsOf(shapes) == rings && forall k :: 0 <= k < |shapes| ==> shapes[k].kind == kind
    requires |order| == |shapes| && InRange(order, |shapes|)
    requires forall p :: 0 <= p < |shapes| ==> p in order
    requires forall k :: 0 <= k < |shapes| ==> |shapes[k].points| > 0
    requires StablySorted(order, MinXs(PointsOf(shapes)))
    requires |sorted| == |shapes| && forall i :: 0 <= i < |sorted| ==> sorted[i] == shapes[order[i]]
    ensures Ordered(sorted, order, rings, kind)
    ensures forall k :: 0 <= k < |sorted| ==> |sorted[k].points| > 0
  {
    forall i | 0 <= i < |sorted|
      ensures sorted[i].kind == kind && sorted[i].points == rings[order[i]] && |sorted[i].points| > 0
    {
      assert sorted[i] == shapes[order[i]];
    }
  }

  /** The shapes checkOverlap keeps all have the kind they were traced with. */
  lemma ResolvedKind(top: seq<Shape>, sorted: seq<Shape>, order: seq<int>,
                     rings: seq<seq<Pt>>, kind: ShapeKind)
    requires Ordered(sorted, order, rings, kind) && Survivors(top, sorted)
    ensures Built(top, sorted, order, rings, kind)
  {
    TopsAreTop(sorted, Boxes(PointsOf(sorted)), |sorted|);
  }

  /** The tracing half of buildShapes/buildBorder: one new shape per ring,
      ready for checkOverlap. */
  method TraceFresh(m: FragmentMap, kind: ShapeKind) returns (shapes: seq<Shape>)
    modifies m
    ensures m.contents == Empty
    ensures PointsOf(shapes) == RingsOf(old(m.contents))
    ensures forall k :: 0 <= k < |shapes| ==>
      && fresh(shapes[k]) && shapes[k].kind == kind && shapes[k].CacheFresh()
      && !shapes[k].isContained && shapes[k].inverse == []
    ensures Unaliased(shapes)
  {
    RingsNonEmpty(m.contents);
    shapes := TraceRings(m, kind);
  }

  /** buildShapes (territory shapes of one owner) and buildBorder: trace
      the map into rings, one new shape per ring, and keep the shapes
      checkOverlap returns. An empty map gives no ring and no shape, which
      is the early return of the source. */
  ghost predicate Built(top: seq<Shape>, sorted: seq<Shape>, order: seq<int>, rings: seq<seq<Pt>>, kind: ShapeKind)
  {
    && Ordered(sorted, order, rings, kind) && Survivors(top, sorted)
    && forall sh :: sh in top ==> sh.kind == kind
  }

  method BuildShapes(m: FragmentMap, kind: ShapeKind)
    returns (top: seq<Shape>, ghost sorted: seq<Shape>, ghost order: seq<int>)
    modifies m
    ensures m.contents == Empty
    ensures forall i :: 0 <= i < |sorted| ==> fresh(sorted[i])
    ensures Built(top, sorted, order, RingsOf(old(m.contents)), kind)
    ensures var ps := PointsOf(sorted); var bs := Boxes(ps);
      forall k :: 0 <= k < |sorted| ==>
        && sorted[k].isContained == ContainedAny(bs, k)
        && sorted[k].inverse == (if Top(bs, k) then Holes(ps, bs, k, |sorted|) else [])
  {
    var shapes := TraceFresh(m, kind);
    sorted, top, order := CheckOverlap(shapes);
    SortedOrdered(shapes, sorted, order, RingsOf(old(m.contents)), kind);
    ResolvedKind(top, sorted, order, RingsOf(old(m.contents)), kind);
  }

  /** The territory part of a sector's data. The three maps are the
      sector's own objects: the operations below clear and fill them but
      never replace them. */
  class SectorSpace {
    const points: FragmentMap        // ENNEMY fragments
    const userPoints: FragmentMap    // USER fragments
    const borderPoints: FragmentMap  // every other owner
    var shapes: seq<Shape>
    var userShapes: seq<Shape>
    var borders: seq<Shape>

    /** The three maps are three different objects. */
    ghost predicate Valid()
    {
      points != userPoints && points != borderPoints && userPoints != borderPoints
    }

    /** A new sector: no shapes and three empty maps. */
    constructor ()
      ensures Valid() && fresh(points) && fresh(userPoints) && fresh(borderPoints)
      ensures points.contents == Empty && userPoints.contents == Empty && borderPoints.contents == Empty
      ensures shapes == [] && userShapes == [] && borders == []
    {
      points := new FragmentMap();
      userPoints := new FragmentMap();
      borderPoints := new FragmentMap();
      shapes, userShapes, borders := [], [], [];
    }

    /** `add`: record the fragment `a -> b` in the map of its owner. */
    method Add(a: Pt, b: Pt, owner: Owner)
      requires Valid()
      modifies points, userPoints, borderPoints
      ensures Valid()
      ensures points.contents
              == if owner == ENNEMY then old(points.contents).Set(a, b) else old(points.contents)
      ensures userPoints.contents
              == if owner == USER then old(userPoints.contents).Set(a, b) else old(userPoints.contents)
      ensures borderPoints.contents
              == if owner == TERRITORY then old(borderPoints.contents).Set(a, b) else old(borderPoints.contents)
    {
      if owner == ENNEMY {
        points.Set(a, b);
      } else if owner == USER {
        userPoints.Set(a, b);
      } else {
        borderPoints.Set(a, b);
      }
    }

    /** `reset`: clear the three maps; the shapes stay as they were. */
    method Reset()
      requires Valid()
      modifies points, userPoints, borderPoints
      ensures Valid()
      ensures points.contents == Empty && userPoints.contents == Empty && borderPoints.contents == Empty
    {
      points.Clear();
      userPoints.Clear();
      borderPoints.Clear();
    }

    /** `computeShapes`: ENNEMY shapes from `points`, USER shapes from
        `userPoints`, borders from `borderPoints`, each list the survivors
        of checkOverlap on the rings of its map; the three maps are
        consumed. (`sortedN`/`orderN` are the sorted shapes behind each
        list.) */
    method ComputeShapes()
      returns (ghost sorted1: seq<Shape>, ghost order1: seq<int>, ghost sorted2: seq<Shape>,
               ghost order2: seq<int>, ghost sorted3: seq<Shape>, ghost order3: seq<int>)
      requires Valid()
      modifies this, points, userPoints, borderPoints
      ensures Valid()
      ensures points.contents == Empty && userPoints.contents == Empty && borderPoints.contents == Empty
      ensures Built(shapes, sorted1, order1, RingsOf(old(points.contents)), TerritoryShape(ENNEMY))
      ensures Built(userShapes, sorted2, order2, RingsOf(old(userPoints.contents)), TerritoryShape(USER))
      ensures Built(borders, sorted3, order3, RingsOf(old(borderPoints.contents)), BorderShape)
    {
      ghost var r1, r2, r3 := RingsOf(points.contents), RingsOf(userPoints.contents), RingsOf(borderPoints.contents);
      var a, b, c;
      a, sorted1, order1 := BuildShapes(points, TerritoryShape(ENNEMY));
      assert RingsOf(userPoints.contents) == r2 && RingsOf(borderPoints.contents) == r3;
      b, sorted2, order2 := BuildShapes(userPoints, TerritoryShape(USER));
      assert RingsOf(borderPoints.contents) == r3 && points.contents == Empty;
      c, sorted3, order3 := BuildShapes(borderPoints, BorderShape);
      shapes, userShapes, borders := a, b, c;
    }
  }
}
