/** The square grid of the territory engine: control nodes, the squares that
    share them, and the edge slots where interpolated contour points are
    cached. */
module SpaceGrid {
  import opened Common
  import opened Territory
  import opened Cases

  /** A grid node. Its position never changes once the grid is built; the
      control pass writes its strength, dominant sectors and owner, and the
      marching-squares pass caches one contour point on the edge towards
      the node above (`above`) and one on the edge towards the node on the
      right (`right`). `col`/`row` name the node's place in the grid: it
      sits at `((col - 1) * s, (row - 1) * s)` for square size `s`. */
  class ControlNode {
    const x: real
    const y: real
    ghost const col: int
    ghost const row: int
    var strength: real
    var territory: Option<SectorSpace>
    var owner: Option<Owner>
    var strength2nd: Option<real>
    var territory2nd: Option<SectorSpace>
    var above: Option<Pt>
    var right: Option<Pt>

    constructor (x: real, y: real, ghost col: int, ghost row: int)
      ensures this.x == x && this.y == y && this.col == col && this.row == row
      ensures Blank(this)
    {
      this.x, this.y, this.col, this.row := x, y, col, row;
      strength := 0.0;
      territory, owner := None, None;
      strength2nd, territory2nd := None, None;
      above, right := None, None;
    }
  }

  /** A node as the constructor leaves it: strength 0 and nothing else set. */
  ghost predicate Blank(n: ControlNode)
    reads n
  {
    && n.strength == 0.0 && n.territory.None? && n.owner.None?
    && n.strength2nd.None? && n.territory2nd.None? && n.above.None? && n.right.None?
  }

  /** The four corners of a square, clockwise from the top left. */
  datatype Square = Square(topLeft: ControlNode, topRight: ControlNode,
                           bottomRight: ControlNode, bottomLeft: ControlNode)

  /** The coordinate of grid place `k` for square size `s`: the grid
      starts one square before the origin. */
  function At(k: int, s: real): real
  {
    (k - 1) as real * s
  }

  /** The node sits where its grid place says, for square size `s`. */
  ghost predicate Placed(n: ControlNode, s: real)
  {
    n.x == At(n.col, s) && n.y == At(n.row, s)
  }

  /** Square `(c, r)` has corners at grid places `(c, r)`, `(c + 1, r)`,
      `(c + 1, r + 1)` and `(c, r + 1)`, each placed accordingly. */
  ghost predicate Cornered(sq: Square, c: int, r: int, s: real)
  {
    && sq.topLeft.col == c && sq.topLeft.row == r
    && sq.topRight.col == c + 1 && sq.topRight.row == r
    && sq.bottomRight.col == c + 1 && sq.bottomRight.row == r + 1
    && sq.bottomLeft.col == c && sq.bottomLeft.row == r + 1
    && Placed(sq.topLeft, s) && Placed(sq.topRight, s)
    && Placed(sq.bottomRight, s) && Placed(sq.bottomLeft, s)
  }

  /** Square `(c, r)` reuses the nodes of its left and upper neighbours. */
  ghost predicate SharesWithNeighbours(g: seq<seq<Square>>, c: int, r: int)
    requires 0 <= c < |g| && 0 <= r < |g[c]|
    requires c > 0 ==> |g[c - 1]| == |g[c]|
  {
    && (c > 0 ==> g[c][r].topLeft == g[c - 1][r].topRight && g[c][r].bottomLeft == g[c - 1][r].bottomRight)
    && (r > 0 ==> g[c][r].topLeft == g[c][r - 1].bottomLeft && g[c][r].topRight == g[c][r - 1].bottomRight)
  }

  /** The grid built by initSquares: `cols` columns of `h` squares, every
      square cornered at its place and sharing nodes with its neighbours. */
  ghost predicate GridOk(g: seq<seq<Square>>, cols: nat, h: nat, s: real)
  {
    && |g| == cols
    && (forall c :: 0 <= c < cols ==> |g[c]| == h)
    && (forall c, r :: 0 <= c < cols && 0 <= r < h ==> Cornered(g[c][r], c, r, s))
    && (forall c, r :: 0 <= c < cols && 0 <= r < h ==> SharesWithNeighbours(g, c, r))
  }

  /** Column `c` as initSquares builds it: `h` squares cornered at their
      places, each sharing its top corners with the bottom corners of the
      square above. */
  ghost predicate ColumnOk(col: seq<Square>, c: int, h: nat, s: real)
  {
    && |col| == h
    && (forall r :: 0 <= r < h ==> Cornered(col[r], c, r, s))
    && (forall r :: 0 < r < h ==> col[r].topLeft == col[r - 1].bottomLeft && col[r].topRight == col[r - 1].bottomRight)
  }

  /** A column grows by a square cornered below its last one. */
  lemma ColumnGrows(col: seq<Square>, sq: Square, c: int, r: nat, s: real)
    requires ColumnOk(col, c, r, s) && Cornered(sq, c, r, s)
    requires r > 0 ==> sq.topLeft == col[r - 1].bottomLeft && sq.topRight == col[r - 1].bottomRight
    ensures ColumnOk(col + [sq], c, r + 1, s)
  {
  }

  /** Column `col` takes its left corners from the right corners of `left`. */
  ghost predicate Adjoins(left: seq<Square>, col: seq<Square>)
  {
    |left| == |col| && forall r :: 0 <= r < |col| ==>
      col[r].topLeft == left[r].topRight && col[r].bottomLeft == left[r].bottomRight
  }

  lemma FirstColumnGrid(col: seq<Square>, h: nat, s: real)
    requires ColumnOk(col, 0, h, s)
    ensures GridOk([col], 1, h, s)
  {
  }

  /** A grid grows by a column that adjoins its last one. */
  lemma NextColumnGrid(g: seq<seq<Square>>, col: seq<Square>, c: nat, h: nat, s: real)
    requires c > 0 && GridOk(g, c, h, s) && ColumnOk(col, c, h, s) && Adjoins(g[c - 1], col)
    ensures GridOk(g + [col], c + 1, h, s)
  {
    var g' := g + [col];
    forall i, r | 0 <= i < c + 1 && 0 <= r < h
      ensures Cornered(g'[i][r], i, r, s) && SharesWithNeighbours(g', i, r)
    {
      if i < c {
        assert g'[i] == g[i];
        assert Cornered(g[i][r], i, r, s) && SharesWithNeighbours(g, i, r);
      }
    }
  }

  /** Where each edge of a square caches its contour point: the left edge
      in the bottom-left node's `above`, the bottom edge in its `right`, the
      right edge in the bottom-right node's `above`, the top edge in the
      top-left node's `right`. */
  function CacheNode(sq: Square, e: Edge): ControlNode
  {
    match e
    case Left => sq.bottomLeft
    case Bottom => sq.bottomLeft
    case Right => sq.bottomRight
    case Top => sq.topLeft
  }

  predicate InAbove(e: Edge)
  {
    e == Left || e == Right
  }

  /** The point cached for edge `e` of `sq`, if any. */
  function Cached(sq: Square, e: Edge): Option<Pt>
    reads CacheNode(sq, e)
  {
    var n := CacheNode(sq, e);
    if InAbove(e) then n.above else n.right
  }

  /** Neighbouring squares see one cache slot for their common edge: the
      bottom edge of `(c, r)` is the top edge of `(c, r + 1)`, and the right
      edge of `(c, r)` is the left edge of `(c + 1, r)`. */
  lemma SharedEdges(g: seq<seq<Square>>, cols: nat, h: nat, s: real, c: int, r: int)
    requires GridOk(g, cols, h, s) && 0 <= c < cols && 0 <= r < h
    ensures r + 1 < h ==> CacheNode(g[c][r], Bottom) == CacheNode(g[c][r + 1], Top)
    ensures c + 1 < cols ==> CacheNode(g[c][r], Right) == CacheNode(g[c + 1][r], Left)
  {
    if r + 1 < h {
      assert SharesWithNeighbours(g, c, r + 1);
    }
    if c + 1 < cols {
      assert SharesWithNeighbours(g, c + 1, r);
    }
  }

  /** Every node of a square is shared with each neighbour that touches it:
      the top-left corner of `(c, r)` is also the bottom-right corner of
      `(c - 1, r - 1)`. */
  lemma DiagonalShare(g: seq<seq<Square>>, cols: nat, h: nat, s: real, c: int, r: int)
    requires GridOk(g, cols, h, s) && 1 <= c < cols && 1 <= r < h
    ensures g[c][r].topLeft == g[c - 1][r - 1].bottomRight
  {
    assert SharesWithNeighbours(g, c, r);
    assert SharesWithNeighbours(g, c - 1, r);
  }

  /** Corner `k` of a square, clockwise from the top left. */
  function Corner(sq: Square, k: int): ControlNode
  {
    if k == 0 then sq.topLeft else if k == 1 then sq.topRight else if k == 2 then sq.bottomRight else sq.bottomLeft
  }

  /** Every node of the grid. */
  ghost function NodesOf(g: seq<seq<Square>>): set<ControlNode>
  {
    set c, r, k | 0 <= c < |g| && 0 <= r < |g[c]| && 0 <= k < 4 :: Corner(g[c][r], k)
  }

  /** The grid is an arena of nodes indexed by place: every node whose
      place is the top-left corner of a square is that square's top-left
      node, and every node sits where its place says. */
  lemma NodeAtPlace(g: seq<seq<Square>>, cols: nat, h: nat, s: real, n: ControlNode)
    requires GridOk(g, cols, h, s) && n in NodesOf(g)
    ensures 0 <= n.col <= cols && 0 <= n.row <= h && Placed(n, s)
    ensures n.col < cols && n.row < h ==> n == g[n.col][n.row].topLeft
  {
    var c, r, k :| 0 <= c < |g| && 0 <= r < |g[c]| && 0 <= k < 4 && n == Corner(g[c][r], k);
    assert Cornered(g[c][r], c, r, s);
    if n.col < cols && n.row < h {
      if k == 1 {
        assert SharesWithNeighbours(g, c + 1, r);
      } else if k == 2 {
        assert SharesWithNeighbours(g, c + 1, r + 1);
        assert SharesWithNeighbours(g, c, r + 1);
      } else if k == 3 {
        assert SharesWithNeighbours(g, c, r + 1);
      }
    }
  }

  /** The corners of a square are four different nodes. */
  lemma CornersDistinct(g: seq<seq<Square>>, cols: nat, h: nat, s: real, c: int, r: int)
    requires GridOk(g, cols, h, s) && 0 <= c < cols && 0 <= r < h
    ensures var sq := g[c][r];
      && sq.topLeft != sq.topRight && sq.topLeft != sq.bottomRight && sq.topLeft != sq.bottomLeft
      && sq.topRight != sq.bottomRight && sq.topRight != sq.bottomLeft && sq.bottomRight != sq.bottomLeft
  {
    assert Cornered(g[c][r], c, r, s);
  }
}
