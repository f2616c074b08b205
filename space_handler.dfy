/** SpaceHandler: the grid of control nodes over the galaxy, the control
    pass that gives every interior node its strongest sector, and the
    marching-squares pass that turns the nodes' sectors into fragment
    links in each sector's maps. */
module Space {
  import opened Common
  import opened Fragments
  import opened Territory
  import opened Cases
  import opened Encoding
  import opened Control
  import opened Contour
  import opened SpaceGrid
  import opened Overlap

  /** Math.ceil. */
  function Ceil(r: real): (n: int)
    ensures n as real - 1.0 < r <= n as real
  {
    if r.Floor as real == r then r.Floor else r.Floor + 1
  }

  /** What the interpolation reads of a node. */
  datatype Level = Level(strength: real, strength2nd: Option<real>)

  /** The distance from the first node of an edge to the contour crossing,
      as lerpX/lerpY compute it from the two nodes: the first argument
      selects the threshold formula (true) or the second-strength formula
      (false). The arithmetic itself is kept abstract. */
  type Offset = (bool, Level, Level) -> real

  function LevelOf(n: ControlNode): Level
    reads n`strength, n`strength2nd
  {
    Level(n.strength, n.strength2nd)
  }

  /** lerpX/lerpY's choice of formula: the threshold formula when either
      node has no territory, or both have the same territory and owner. */
  predicate SameSide(small: ControlNode, big: ControlNode)
    reads small`territory, small`owner, big`territory, big`owner
  {
    small.territory.None? || big.territory.None? || (small.territory == big.territory && small.owner == big.owner)
  }

  /** lerpX: along a horizontal edge; the crossing keeps the first node's y. */
  function LerpX(small: ControlNode, big: ControlNode, offset: Offset): Coord
    reads small`strength, small`strength2nd, small`territory, small`owner
    reads big`strength, big`strength2nd, big`territory, big`owner
  {
    Coord(small.x + offset(SameSide(small, big), LevelOf(small), LevelOf(big)), small.y)
  }

  /** lerpY: along a vertical edge; the crossing keeps the first node's x. */
  function LerpY(small: ControlNode, big: ControlNode, offset: Offset): Coord
    reads small`strength, small`strength2nd, small`territory, small`owner
    reads big`strength, big`strength2nd, big`territory, big`owner
  {
    Coord(small.x, small.y + offset(SameSide(small, big), LevelOf(small), LevelOf(big)))
  }

  /** The crossing on each edge of a square: left lerpY(topLeft,
      bottomLeft), bottom lerpX(bottomLeft, bottomRight), right
      lerpY(topRight, bottomRight), top lerpX(topLeft, topRight). */
  function SpotsOf(sq: Square, offset: Offset): Spots
    reads sq.topLeft`strength, sq.topLeft`strength2nd, sq.topLeft`territory, sq.topLeft`owner
    reads sq.topRight`strength, sq.topRight`strength2nd, sq.topRight`territory, sq.topRight`owner
    reads sq.bottomRight`strength, sq.bottomRight`strength2nd, sq.bottomRight`territory, sq.bottomRight`owner
    reads sq.bottomLeft`strength, sq.bottomLeft`strength2nd, sq.bottomLeft`territory, sq.bottomLeft`owner
  {
    Spots(LerpY(sq.topLeft, sq.bottomLeft, offset), LerpX(sq.bottomLeft, sq.bottomRight, offset),
          LerpY(sq.topRight, sq.bottomRight, offset), LerpX(sq.topLeft, sq.topRight, offset))
  }

  /** Each crossing lies on its edge: on the left and right edges it has
      the x of both end nodes, on the top and bottom edges their y. */
  lemma SpotsOnEdges(sq: Square, c: int, r: int, s: real, offset: Offset)
    requires Cornered(sq, c, r, s)
    ensures var sp := SpotsOf(sq, offset);
      && sp.left.x == sq.topLeft.x == sq.bottomLeft.x
      && sp.right.x == sq.topRight.x == sq.bottomRight.x
      && sp.top.y == sq.topLeft.y == sq.topRight.y
      && sp.bottom.y == sq.bottomLeft.y == sq.bottomRight.y
  {
  }

  /** What the square pass reads off a node. */
  function ReadingOf(n: ControlNode, threshold: real): Reading
    reads n`strength, n`territory, n`owner
  {
    Reading(n.strength >= threshold, n.territory, n.owner)
  }

  function ReadingsOf(sq: Square, threshold: real): (rs: seq<Reading>)
    reads sq.topLeft`strength, sq.topLeft`territory, sq.topLeft`owner
    reads sq.topRight`strength, sq.topRight`territory, sq.topRight`owner
    reads sq.bottomRight`strength, sq.bottomRight`territory, sq.bottomRight`owner
    reads sq.bottomLeft`strength, sq.bottomLeft`territory, sq.bottomLeft`owner
    ensures |rs| == 4
  {
    [ReadingOf(sq.topLeft, threshold), ReadingOf(sq.topRight, threshold),
     ReadingOf(sq.bottomRight, threshold), ReadingOf(sq.bottomLeft, threshold)]
  }

  /** The square's four edge slots (see SpaceGrid.CacheNode). */
  function SlotsOf(sq: Square): Slots
    reads sq.bottomLeft`above, sq.bottomLeft`right, sq.bottomRight`above, sq.topLeft`right
  {
    Slots(sq.bottomLeft.above, sq.bottomLeft.right, sq.bottomRight.above, sq.topLeft.right)
  }

  /** The four slots of a square are four different places. */
  predicate SlotsApart(sq: Square)
  {
    sq.bottomLeft != sq.bottomRight && sq.bottomLeft != sq.topLeft
  }

  /** A node the control pass has classified keeps these together: a
      positive strength comes with a territory, and a territory with an
      owner that is ENNEMY or USER. */
  predicate NodeOk(n: ControlNode)
    reads n`strength, n`territory, n`owner
  {
    && (n.strength > 0.0 ==> n.territory.Some?)
    && (n.territory.Some? ==> n.owner.Some? && n.owner.value != TERRITORY)
  }

  /** With a positive threshold, an active node has what the corner
      encoding needs. */
  lemma ActiveIsOwned(n: ControlNode, threshold: real)
    requires NodeOk(n) && threshold > 0.0
    ensures Owned(ReadingOf(n, threshold))
  {
  }

  /** The fragment map of `s` that `TerritoryUtils.add` uses for owner `o`. */
  function MapOf(s: SectorSpace, o: Owner): FragmentMap
  {
    if o == ENNEMY then s.points else if o == USER then s.userPoints else s.borderPoints
  }

  function MapsOf(sectors: set<SectorSpace>): set<FragmentMap>
  {
    (set s | s in sectors :: s.points) + (set s | s in sectors :: s.userPoints)
      + (set s | s in sectors :: s.borderPoints)
  }

  /** Every sector has three maps of its own, and no two sectors share
      one. */
  ghost predicate SectorsOk(sectors: set<SectorSpace>)
  {
    && (forall s :: s in sectors ==> s.Valid())
    && (forall s, t :: s in sectors && t in sectors && s != t ==>
          {s.points, s.userPoints, s.borderPoints} !! {t.points, t.userPoints, t.borderPoints})
  }

  // ---------------------------------------------------------------------
  // The contour pass of one square, on the square's four slots

  /** Every point cached in `sl` has an id below `id`. */
  predicate IdsBelow(sl: Slots, id: nat)
  {
    forall e :: sl.Get(e).Some? ==> sl.Get(e).value.id < id
  }

  /** Fills keep the ids of the slots below the id counter. */
  lemma FillAllIds(sl: Slots, es: seq<Edge>, sp: Spots, id: nat)
    requires IdsBelow(sl, id)
    ensures IdsBelow(FillAll(sl, es, sp, id).0, FillAll(sl, es, sp, id).1)
  {
    FillAllEffect(sl, es, sp, id);
  }

  /** One case arm of interpretState: fill the fragment's two edge points
      (`if (cache == null) cache = lerp(...)`, a new point with the next id
      at the edge's crossing), then `TerritoryUtils.add` the link between
      them to the owner's map. */
  method Emit(sl: Slots, sp: Spots, id: nat, sector: SectorSpace, f: Fragment, owner: Owner)
    returns (sl': Slots, id': nat)
    requires sector.Valid() && WellFormed(f)
    modifies sector.points, sector.userPoints, sector.borderPoints
    ensures (sl', id') == FillAll(sl, [f.first, f.second], sp, id)
    ensures Filled([f], sl')
    ensures MapOf(sector, owner).contents == ApplyPairs(old(MapOf(sector, owner).contents), Pairs([f], sl'))
    ensures forall o :: o != owner ==> MapOf(sector, o).contents == old(MapOf(sector, o).contents)
  {
    var a := Fill(sl, f.first, sp, id);
    var b := Fill(a.0, f.second, sp, a.1);
    sl', id' := b.0, b.1;
    FillTwo(sl, f.first, f.second, sp, id);
    FillAllEffect(sl, [f.first, f.second], sp, id);
    sector.Add(sl'.Get(f.from).value, sl'.Get(f.to).value, owner);
    PairsOne(f, sl');
  }

  /** The fragments of `fs`, one after the other. */
  method EmitAll(sl: Slots, sp: Spots, id: nat, sector: SectorSpace, fs: seq<Fragment>, owner: Owner)
    returns (sl': Slots, id': nat)
    requires sector.Valid() && |fs| <= 2 && forall f :: f in fs ==> WellFormed(f)
    modifies sector.points, sector.userPoints, sector.borderPoints
    ensures (sl', id') == FillAll(sl, FillOrder(fs), sp, id)
    ensures Filled(fs, sl')
    ensures MapOf(sector, owner).contents == ApplyPairs(old(MapOf(sector, owner).contents), Pairs(fs, sl'))
    ensures forall o :: o != owner ==> MapOf(sector, o).contents == old(MapOf(sector, o).contents)
  {
    sl', id' := sl, id;
    if |fs| == 1 {
      sl', id' := Emit(sl, sp, id, sector, fs[0], owner);
      OneFragment(fs[0]);
      assert fs == [fs[0]];
    } else if |fs| == 2 {
      var sl1, id1 := Emit(sl, sp, id, sector, fs[0], owner);
      sl', id' := Emit(sl1, sp, id1, sector, fs[1], owner);
      TwoFragments(sl, fs[0], fs[1], sp, id, old(MapOf(sector, owner).contents));
      assert fs == [fs[0], fs[1]];
    }
  }

  /** interpretState: the fragments of the case table for `state`. */
  method InterpretState(sl: Slots, sp: Spots, id: nat, sector: SectorSpace, state: int, owner: Owner)
    returns (sl': Slots, id': nat)
    requires sector.Valid()
    modifies sector.points, sector.userPoints, sector.borderPoints
    ensures (sl', id') == FillAll(sl, FillOrder(Table(state)), sp, id)
    ensures Filled(Table(state), sl')
    ensures MapOf(sector, owner).contents == ApplyPairs(old(MapOf(sector, owner).contents), Pairs(Table(state), sl'))
    ensures forall o :: o != owner ==> MapOf(sector, o).contents == old(MapOf(sector, o).contents)
  {
    TableWellFormed(state);
    sl', id' := EmitAll(sl, sp, id, sector, Table(state), owner);
  }

  /** The three interpretState calls of one state entry: ENNEMY, USER,
      then TERRITORY. */
  method InterpretEntry(sl: Slots, sp: Spots, id: nat, e: StateEntry) returns (sl': Slots, id': nat)
    requires |e.state| == 3 && e.sector.Valid()
    modifies e.sector.points, e.sector.userPoints, e.sector.borderPoints
    ensures (sl', id') == FillAll(sl, EntryFills(e), sp, id)
    ensures EntryFilled(e, sl')
    ensures forall o :: MapOf(e.sector, o).contents
                        == ApplyPairs(old(MapOf(e.sector, o).contents), EntryPairs(e, e.sector, o, sl'))
  {
    var sl1, id1 := InterpretState(sl, sp, id, e.sector, e.state[0], ENNEMY);
    var sl2, id2 := InterpretState(sl1, sp, id1, e.sector, e.state[1], USER);
    sl', id' := InterpretState(sl2, sp, id2, e.sector, e.state[2], TERRITORY);
    ghost var t0, t1, t2 := Table(e.state[0]), Table(e.state[1]), Table(e.state[2]);
    ThreeLists(sl, t0, t1, t2, sp, id);
    PairsStable(t1, sl2, sl');
  }

  /** The maps of the sectors hold what `c` says, by sector and owner. */
  ghost predicate Holds(sectors: set<SectorSpace>, c: imap<(SectorSpace, Owner), ValidMap>)
    reads MapsOf(sectors)
  {
    forall s, o :: s in sectors ==> (s, o) in c && MapOf(s, o).contents == c[(s, o)]
  }

  /** The maps `c` once entry `e` is interpreted: the maps of the entry's
      sector gain its links, the others stay as they are. */
  ghost function EntryStep(c: imap<(SectorSpace, Owner), ValidMap>, e: StateEntry, sl: Slots): imap<(SectorSpace, Owner), ValidMap>
    requires |e.state| == 3
  {
    imap p | p in c :: ApplyPairs(c[p], EntryPairs(e, p.0, p.1, sl))
  }

  /** The maps `m0` once the first `n` entries of `states` are
      interpreted. */
  ghost function Target(m0: imap<(SectorSpace, Owner), ValidMap>, states: seq<StateEntry>, n: nat, sl: Slots)
    : imap<(SectorSpace, Owner), ValidMap>
    requires Slotted(states) && n <= |states|
  {
    imap p | p in m0 :: ApplyPairs(m0[p], StatesPairs(states[..n], p.0, p.1, sl))
  }

  /** Before any entry, the maps are as they were. */
  lemma TargetStart(m0: imap<(SectorSpace, Owner), ValidMap>, states: seq<StateEntry>, sl: Slots)
    requires Slotted(states)
    ensures Target(m0, states, 0, sl) == m0
  {
    assert states[..0] == [];
  }

  /** Interpreting entry `k` takes the maps after the first `k` entries to
      the maps after the first `k + 1`, once the slots have grown to hold
      the entry's points. */
  lemma TargetStep(m0: imap<(SectorSpace, Owner), ValidMap>, states: seq<StateEntry>, k: nat, a: Slots, b: Slots)
    requires Slotted(states) && k < |states|
    requires StatesFilled(states[..k], a) && Grows(a, b)
    ensures Target(m0, states, k + 1, b) == EntryStep(Target(m0, states, k, a), states[k], b)
  {
    var x, y := Target(m0, states, k + 1, b), EntryStep(Target(m0, states, k, a), states[k], b);
    forall p | p in x
      ensures p in y && x[p] == y[p]
    {
      TargetAt(m0, states, k, a, b, p);
    }
    SameIMap(x, y);
  }

  /** Two infinite maps with the same keys and the same value at each key
      are equal. */
  lemma SameIMap<K, V>(x: imap<K, V>, y: imap<K, V>)
    requires forall p :: p in x ==> p in y && x[p] == y[p]
    requires forall p :: p in y ==> p in x
    ensures x == y
  {
  }

  /** TargetStep for the maps of one sector and owner. */
  lemma TargetAt(m0: imap<(SectorSpace, Owner), ValidMap>, states: seq<StateEntry>, k: nat, a: Slots, b: Slots,
                 p: (SectorSpace, Owner))
    requires Slotted(states) && k < |states| && p in m0
    requires StatesFilled(states[..k], a) && Grows(a, b)
    ensures Target(m0, states, k + 1, b)[p] == ApplyPairs(Target(m0, states, k, a)[p], EntryPairs(states[k], p.0, p.1, b))
  {
    StatesStep(states, k, a, b, p.0, p.1);
    ApplyAppend(m0[p], StatesPairs(states[..k], p.0, p.1, a), EntryPairs(states[k], p.0, p.1, b));
  }

  /** interpretState for one entry, seen from all the sectors: the maps of
      the entry's sector gain its links and every other map is unchanged. */
  method InterpretInSectors(sl: Slots, sp: Spots, id: nat, e: StateEntry, ghost sectors: set<SectorSpace>,
                            ghost c: imap<(SectorSpace, Owner), ValidMap>)
    returns (sl': Slots, id': nat)
    requires |e.state| == 3 && e.sector in sectors && SectorsOk(sectors) && Holds(sectors, c)
    modifies MapsOf(sectors)
    ensures (sl', id') == FillAll(sl, EntryFills(e), sp, id)
    ensures EntryFilled(e, sl')
    ensures Holds(sectors, EntryStep(c, e, sl'))
  {
    sl', id' := InterpretEntry(sl, sp, id, e);
    forall s, o | s in sectors
      ensures (s, o) in EntryStep(c, e, sl') && MapOf(s, o).contents == EntryStep(c, e, sl')[(s, o)]
    {
      if s != e.sector {
        OtherSector(sectors, s, e.sector, o);
      }
    }
  }

  /** A map of one sector is none of another sector's maps. */
  lemma OtherSector(sectors: set<SectorSpace>, s: SectorSpace, t: SectorSpace, o: Owner)
    requires SectorsOk(sectors) && s in sectors && t in sectors && s != t
    ensures MapOf(s, o) != t.points && MapOf(s, o) != t.userPoints && MapOf(s, o) != t.borderPoints
  {
  }

  /** One turn of computeTerritories' loop over the entries of a square's
      states map: entry `k` is interpreted, and the fills and links of the
      entries before it are kept. `m0` holds the maps as they were before
      the loop. */
  method InterpretNext(sl0: Slots, sp: Spots, id0: nat, states: seq<StateEntry>, k: nat, sl: Slots, id: nat,
                       ghost sectors: set<SectorSpace>, ghost m0: imap<(SectorSpace, Owner), ValidMap>)
    returns (sl': Slots, id': nat)
    requires Slotted(states) && k < |states| && states[k].sector in sectors && SectorsOk(sectors)
    requires (sl, id) == FillAll(sl0, StatesFills(states[..k]), sp, id0) && StatesFilled(states[..k], sl)
    requires Holds(sectors, Target(m0, states, k, sl))
    modifies MapsOf(sectors)
    ensures (sl', id') == FillAll(sl0, StatesFills(states[..k + 1]), sp, id0) && StatesFilled(states[..k + 1], sl')
    ensures Holds(sectors, Target(m0, states, k + 1, sl'))
  {
    sl', id' := InterpretInSectors(sl, sp, id, states[k], sectors, Target(m0, states, k, sl));
    FillsNext(sl0, sp, id0, states, k, sl, id, sl', id');
    TargetStep(m0, states, k, sl, sl');
  }

  /** computeTerritories' loop over the entries of one square's states
      map, in insertion order. */
  method InterpretStates(sl: Slots, sp: Spots, id: nat, states: seq<StateEntry>, ghost sectors: set<SectorSpace>)
    returns (sl': Slots, id': nat)
    requires Slotted(states) && forall k :: 0 <= k < |states| ==> states[k].sector in sectors
    requires SectorsOk(sectors)
    modifies MapsOf(sectors)
    ensures (sl', id') == FillAll(sl, StatesFills(states), sp, id)
    ensures StatesFilled(states, sl')
    ensures forall s, o :: s in sectors ==>
      MapOf(s, o).contents == ApplyPairs(old(MapOf(s, o).contents), StatesPairs(states, s, o, sl'))
  {
    ghost var m0 := imap p: (SectorSpace, Owner) | p.0 in sectors :: MapOf(p.0, p.1).contents;
    sl', id' := InterpretLoop(sl, sp, id, states, sectors, m0);
    assert states[..|states|] == states;
    forall s, o | s in sectors
      ensures MapOf(s, o).contents == ApplyPairs(old(MapOf(s, o).contents), StatesPairs(states, s, o, sl'))
    {
      assert MapOf(s, o).contents == Target(m0, states, |states|, sl')[(s, o)];
    }
  }

  /** The loop of interpretStates itself: the maps go from `m0` to `m0`
      with the links of every entry. */
  method InterpretLoop(sl: Slots, sp: Spots, id: nat, states: seq<StateEntry>, ghost sectors: set<SectorSpace>,
                       ghost m0: imap<(SectorSpace, Owner), ValidMap>)
    returns (sl': Slots, id': nat)
    requires Slotted(states) && forall k :: 0 <= k < |states| ==> states[k].sector in sectors
    requires SectorsOk(sectors) && Holds(sectors, m0)
    modifies MapsOf(sectors)
    ensures (sl', id') == FillAll(sl, StatesFills(states[..|states|]), sp, id)
    ensures StatesFilled(states[..|states|], sl')
    ensures Holds(sectors, Target(m0, states, |states|, sl'))
  {
    sl', id' := sl, id;
    assert states[..0] == [];
    TargetStart(m0, states, sl);
    for k := 0 to |states|
      invariant (sl', id') == FillAll(sl, StatesFills(states[..k]), sp, id)
      invariant StatesFilled(states[..k], sl')
      invariant Holds(sectors, Target(m0, states, k, sl'))
    {
      sl', id' := InterpretNext(sl, sp, id, states, k, sl', id', sectors, m0);
    }
  }

  /** The corners of `sq` are all in `built`. */
  ghost predicate Within(sq: Square, built: set<ControlNode>)
  {
    sq.topLeft in built && sq.topRight in built && sq.bottomRight in built && sq.bottomLeft in built
  }

  /** Two new blank nodes side by side at grid places `(c, r)` and
      `(c + 1, r)`. */
  method NewPair(c: int, r: int, s: real) returns (left: ControlNode, right: ControlNode)
    ensures fresh(left) && fresh(right) && left != right && Blank(left) && Blank(right)
    ensures left.x == At(c, s) && left.y == At(r, s) && left.col == c && left.row == r
    ensures right.x == At(c + 1, s) && right.y == At(r, s) && right.col == c + 1 && right.row == r
  {
    left := new ControlNode(At(c, s), At(r, s), c, r);
    right := new ControlNode(At(c + 1, s), At(r, s), c + 1, r);
  }

  /** The first loop of initSquares: column 0 top to bottom from four
      fresh nodes, each square's bottom corners becoming the next one's top
      corners. `built` holds the nodes it creates. */
  method FirstColumn(h: nat, s: real) returns (col: seq<Square>, ghost built: set<ControlNode>)
    requires s > 0.0
    ensures ColumnOk(col, 0, h, s)
    ensures forall r :: 0 <= r < h ==> Within(col[r], built)
    ensures forall n :: n in built ==> fresh(n) && Blank(n)
  {
    var topLeft := new ControlNode(At(0, s), At(0, s), 0, 0);
    var topRight := new ControlNode(At(1, s), At(0, s), 1, 0);
    var bottomRight := new ControlNode(At(1, s), At(1, s), 1, 1);
    var bottomLeft := new ControlNode(At(0, s), At(1, s), 0, 1);
    var sq := Square(topLeft, topRight, bottomRight, bottomLeft);
    built := {topLeft, topRight, bottomRight, bottomLeft};
    col := [];
    for r := 0 to h
      invariant ColumnOk(col, 0, r, s) && Cornered(sq, 0, r, s) && Within(sq, built)
      invariant r > 0 ==> sq.topLeft == col[r - 1].bottomLeft && sq.topRight == col[r - 1].bottomRight
      invariant forall k :: 0 <= k < r ==> Within(col[k], built)
      invariant forall n :: n in built ==> fresh(n) && Blank(n)
    {
      ColumnGrows(col, sq, 0, r, s);
      ghost var prevCol, prevBuilt := col, built;
      col := col + [sq];
      bottomLeft, bottomRight := NewPair(0, r + 2, s);
      built := built + {bottomLeft, bottomRight};
      forall k | 0 <= k < r + 1 ensures Within(col[k], built) {
        if k < r {
          assert col[k] == prevCol[k] && Within(prevCol[k], prevBuilt);
        }
      }
      sq := Square(sq.bottomLeft, sq.bottomRight, bottomRight, bottomLeft);
    }
  }

  /** One column `c > 0` of initSquares: the left corners are the right
      corners of `left`, the top-right corner is new in the first row and
      the bottom-right corner of the square above afterwards, and the
      bottom-right corner is always new. */
  method NextColumn(left: seq<Square>, c: nat, h: nat, s: real) returns (col: seq<Square>, ghost built: set<ControlNode>)
    requires s > 0.0 && c > 0 && ColumnOk(left, c - 1, h, s)
    ensures ColumnOk(col, c, h, s) && Adjoins(left, col)
    ensures forall r :: 0 <= r < h ==> col[r].topRight in built && col[r].bottomRight in built
    ensures forall n :: n in built ==> fresh(n) && Blank(n)
  {
    col := [];
    built := {};
    for r := 0 to h
      invariant ColumnOk(col, c, r, s)
      invariant forall k :: 0 <= k < r ==>
        col[k].topLeft == left[k].topRight && col[k].bottomLeft == left[k].bottomRight
      invariant forall k :: 0 <= k < r ==> col[k].topRight in built && col[k].bottomRight in built
      invariant forall n :: n in built ==> fresh(n) && Blank(n)
    {
      var topRight;
      if r == 0 {
        topRight := new ControlNode(At(c + 1, s), At(0, s), c + 1, 0);
        built := built + {topRight};
      } else {
        topRight := col[r - 1].bottomRight;
      }
      var bottomRight := new ControlNode(At(c + 1, s), At(r + 1, s), c + 1, r + 1);
      built := built + {bottomRight};
      var sq := Square(left[r].topRight, topRight, bottomRight, left[r].bottomRight);
      assert Cornered(left[r], c - 1, r, s);
      ColumnGrows(col, sq, c, r, s);
      col := col + [sq];
    }
  }

  /** initSquares: column 0, then each further column from the one before
      it. Column 0 is built even when the grid has no column. */
  method InitSquares(w: nat, h: nat, s: real) returns (g: seq<seq<Square>>)
    requires s > 0.0
    ensures GridOk(g, if w == 0 then 1 else w, h, s)
    ensures forall n :: n in NodesOf(g) ==> fresh(n) && Blank(n)
  {
    var col;
    ghost var built;
    col, built := FirstColumn(h, s);
    FirstColumnGrid(col, h, s);
    g := [col];
    var c := 1;
    while c < w
      invariant 1 <= c <= if w == 0 then 1 else w
      invariant GridOk(g, c, h, s) && ColumnOk(g[c - 1], c - 1, h, s)
      invariant forall i, r :: 0 <= i < c && 0 <= r < h ==> Within(g[i][r], built)
      invariant forall n :: n in built ==> fresh(n) && Blank(n)
    {
      ghost var more;
      col, more := NextColumn(g[c - 1], c, h, s);
      NextColumnGrid(g, col, c, h, s);
      forall r | 0 <= r < h
        ensures Within(col[r], built + more)
      {
        assert Within(g[c - 1][r], built);
      }
      g, built := g + [col], built + more;
      c := c + 1;
    }
    forall n | n in NodesOf(g)
      ensures n in built
    {
      var i, r, q :| 0 <= i < |g| && 0 <= r < |g[i]| && 0 <= q < 4 && n == Corner(g[i][r], q);
      assert Within(g[i][r], built);
    }
  }

  /** The handler. The grid, its sizes and the formulas are fixed at
      construction; the nodes' fields and the id counter for new points
      change. */
  class SpaceHandler {
    const width: real
    const height: real
    const squareSize: real
    const halfSquareSize: int
    const influenceRadius: real
    const influenceThreshold: real
    const nbrSquaresWidth: nat
    const nbrSquaresHeight: nat
    /** The built columns of squares. */
    const columns: seq<seq<Square>>
    /** The influence formula of the control pass and the interpolation
        offset of the contour pass. */
    const influence: Influence
    const offset: Offset
    /** Every node of the grid. */
    ghost const nodes: set<ControlNode>
    /** The id of the next interpolated point. */
    var nextId: nat

    /** Grid places 2 .. W-2 by 2 .. H-2: the nodes the control pass sets. */
    ghost predicate Interior(n: ControlNode)
    {
      2 <= n.col < nbrSquaresWidth - 1 && 2 <= n.row < nbrSquaresHeight - 1
    }

    ghost predicate Grid()
    {
      && squareSize > 0.0
      && GridOk(columns, if nbrSquaresWidth == 0 then 1 else nbrSquaresWidth, nbrSquaresHeight, squareSize)
      && nodes == NodesOf(columns)
    }

    /** Every node is consistent, and a node outside the interior is never
        set: its strength stays 0 and it has no territory. */
    ghost predicate Controls()
      reads nodes`strength, nodes`territory, nodes`owner
    {
      forall n :: n in nodes ==> NodeOk(n) && (!Interior(n) ==> n.strength == 0.0 && n.territory.None?)
    }

    /** Every cached point has an id below the counter, so a new point is
        distinct from every cached one. */
    ghost predicate CacheIds()
      reads nodes`above, nodes`right, this`nextId
    {
      forall n :: n in nodes ==> (n.above.Some? ==> n.above.value.id < nextId)
                                 && (n.right.Some? ==> n.right.value.id < nextId)
    }

    /** The square pass changes no node's control data and never replaces
        a cached point. */
    twostate predicate Kept()
      reads nodes
    {
      forall n :: n in nodes ==>
        && n.strength == old(n.strength) && n.strength2nd == old(n.strength2nd)
        && n.territory == old(n.territory) && n.territory2nd == old(n.territory2nd)
        && n.owner == old(n.owner)
        && (old(n.above).Some? ==> n.above == old(n.above))
        && (old(n.right).Some? ==> n.right == old(n.right))
    }

    ghost predicate Valid()
      reads this, nodes
    {
      Grid() && Controls() && CacheIds()
    }

    /** The handler over a width by height map. The source's backing array
        is created with two more slots than there are columns
        (space-handler.ts:61); nothing reads those two empty trailing slots,
        so `columns` holds only the initialised columns. */
    constructor (width: real, height: real, squareSize: real, influenceRadius: real, influenceThreshold: real,
                 influence: Influence, offset: Offset)
      requires squareSize > 0.0 && width >= 0.0 && height >= 0.0
      ensures Valid() && fresh(nodes) && forall n :: n in nodes ==> Blank(n)
      ensures this.width == width && this.height == height && this.squareSize == squareSize
      ensures this.influenceRadius == influenceRadius && this.influenceThreshold == influenceThreshold
      ensures this.influence == influence && this.offset == offset
      ensures halfSquareSize == (squareSize / 2.0).Floor
      ensures nbrSquaresWidth as real - 1.0 < width / squareSize <= nbrSquaresWidth as real
      ensures nbrSquaresHeight as real - 1.0 < height / squareSize <= nbrSquaresHeight as real
      ensures |columns| == if nbrSquaresWidth == 0 then 1 else nbrSquaresWidth
      ensures nextId == 0
    {
      this.width, this.height := width, height;
      this.squareSize := squareSize;
      halfSquareSize := (squareSize / 2.0).Floor;
      this.influenceRadius, this.influenceThreshold := influenceRadius, influenceThreshold;
      this.influence, this.offset := influence, offset;
      var w := Ceil(width / squareSize);
      var h := Ceil(height / squareSize);
      nbrSquaresWidth, nbrSquaresHeight := w, h;
      var g := InitSquares(w, h, squareSize);
      columns := g;
      nodes := NodesOf(g);
      nextId := 0;
    }

    /** The node holds the classification of the tally of the systems at
        its position. */
    ghost predicate Classified(n: ControlNode, systems: seq<SystemInfo>)
      reads n`strength, n`strength2nd, n`territory, n`territory2nd, n`owner
    {
      var c := Classify(TallyOf(systems, influence, n.x, n.y, |systems|));
      && n.strength == c.strength && n.strength2nd == Some(c.strength2nd)
      && n.territory == c.territory && n.territory2nd == c.territory2nd && n.owner == Some(c.owner)
    }

    /** The body of computeSquaresControl's inner loop: tally the systems
        at the node, sort the sectors by total, take the first two and the
        owner, and clear the node's cached points. */
    method ClassifyNode(node: ControlNode, systems: seq<SystemInfo>)
      modifies node
      ensures Classified(node, systems) && node.above.None? && node.right.None?
      ensures NodeOk(node)
      ensures node.territory.Some? ==> exists k :: 0 <= k < |systems| && systems[k].sector == node.territory.value
    {
      var ts := TallyAt(systems, influence, node.x, node.y);
      var sorted := SortFrom(0, Descending(ts));
      var highestStrength, highestStrength2nd := 0.0, 0.0;
      var highestSector: Option<SectorSpace>, highestSector2nd: Option<SectorSpace> := None, None;
      var owner := ENNEMY;
      if |sorted| > 0 {
        var value := ts[sorted[0]];
        highestStrength := value.total;
        highestSector := Some(value.sector);
        if |sorted| > 1 {
          var second := ts[sorted[1]];
          highestStrength2nd := second.total;
          highestSector2nd := Some(second.sector);
        }
        if value.total - value.user < value.user {
          owner := USER;
        }
      }
      node.strength := highestStrength;
      node.strength2nd := Some(highestStrength2nd);
      node.territory := highestSector;
      node.territory2nd := highestSector2nd;
      node.owner := Some(owner);
      node.above := None;
      node.right := None;
      ClassifyTallied(systems, influence, node.x, node.y);
    }

    /** The inner loop of computeSquaresControl for column `i`: the
        interior nodes of that column are classified top to bottom; no
        other node changes. */
    method ControlColumn(i: int, systems: seq<SystemInfo>)
      requires Grid() && 2 <= i < nbrSquaresWidth - 1
      modifies nodes
      ensures forall n :: n in nodes && Interior(n) && n.col == i ==> Done(n, systems)
      ensures forall n :: n in nodes && !(Interior(n) && n.col == i) ==> unchanged(n)
    {
      var j := 2;
      while j < nbrSquaresHeight - 1
        invariant 2 <= j
        invariant forall n :: n in nodes && Interior(n) && n.col == i && n.row < j ==> Done(n, systems)
        invariant forall n :: n in nodes && !(Interior(n) && n.col == i && n.row < j) ==> unchanged(n)
      {
        var node := columns[i][j].topLeft;
        assert Cornered(columns[i][j], i, j, squareSize);
        assert node in nodes by {
          assert node == Corner(columns[i][j], 0);
        }
        ClassifyNode(node, systems);
        forall n | n in nodes && Interior(n) && n.col == i && n.row == j
          ensures n == node
        {
          NodeAtPlace(columns, if nbrSquaresWidth == 0 then 1 else nbrSquaresWidth, nbrSquaresHeight, squareSize, n);
        }
        j := j + 1;
      }
    }

    /** computeSquaresControl: every interior node is classified and its
        cached points cleared; every other node is left as it was. */
    method ComputeSquaresControl(systems: seq<SystemInfo>)
      requires Valid()
      modifies nodes
      ensures Valid()
      ensures forall n :: n in nodes && Interior(n) ==> Done(n, systems)
      ensures forall n :: n in nodes && !Interior(n) ==> unchanged(n)
    {
      var i := 2;
      while i < nbrSquaresWidth - 1
        invariant 2 <= i
        invariant forall n :: n in nodes && Interior(n) && n.col < i ==> Done(n, systems)
        invariant forall n :: n in nodes && !(Interior(n) && n.col < i) ==> unchanged(n)
      {
        ControlColumn(i, systems);
        i := i + 1;
      }
    }

    /** A node after the control pass. */
    ghost predicate Done(n: ControlNode, systems: seq<SystemInfo>)
      reads n
    {
      && Classified(n, systems) && n.above.None? && n.right.None? && NodeOk(n)
      && (n.territory.Some? ==> exists k :: 0 <= k < |systems| && systems[k].sector == n.territory.value)
    }

    // -------------------------------------------------------------------
    // The contour pass of one square

    /** Every sector a node names is one of `sectors`. */
    ghost predicate TerritoriesIn(sectors: set<SectorSpace>)
      reads nodes`territory
    {
      forall n :: n in nodes && n.territory.Some? ==> n.territory.value in sectors
    }

    /** The corners of every square of column `c` are grid nodes. */
    lemma ColumnNodes(c: int)
      requires Grid() && 0 <= c < |columns|
      ensures forall r :: 0 <= r < |columns[c]| ==> Within(columns[c][r], nodes)
    {
      forall r | 0 <= r < |columns[c]|
        ensures Within(columns[c][r], nodes)
      {
        assert Corner(columns[c][r], 0) in nodes && Corner(columns[c][r], 1) in nodes;
        assert Corner(columns[c][r], 2) in nodes && Corner(columns[c][r], 3) in nodes;
      }
    }

    /** What the contour pass needs of the grid: `nbrSquaresWidth` columns
        of `nbrSquaresHeight` squares, each with its corners among the
        nodes and its cache slots in different nodes. */
    ghost predicate Squares()
    {
      && |columns| >= nbrSquaresWidth
      && (forall c :: 0 <= c < nbrSquaresWidth ==> |columns[c]| == nbrSquaresHeight)
      && forall c, r :: 0 <= c < nbrSquaresWidth && 0 <= r < nbrSquaresHeight ==>
           Within(columns[c][r], nodes) && SlotsApart(columns[c][r])
    }

    lemma GridSquares()
      requires Grid()
      ensures Squares()
    {
      forall c, r | 0 <= c < nbrSquaresWidth && 0 <= r < nbrSquaresHeight
        ensures Within(columns[c][r], nodes) && SlotsApart(columns[c][r])
      {
        ColumnNodes(c);
        CornersDistinct(columns, nbrSquaresWidth, nbrSquaresHeight, squareSize, c, r);
      }
    }

    /** The squares of the first `i` columns, column by column: the order
        of computeTerritories' loops. */
    ghost function Visited(i: nat): (sqs: seq<Square>)
      requires Squares() && i <= nbrSquaresWidth
      ensures forall k :: 0 <= k < |sqs| ==> Within(sqs[k], nodes)
    {
      if i == 0 then [] else Visited(i - 1) + columns[i - 1]
    }

    /** What the square pass reads and what it has cached, square by
        square. */
    ghost function ViewsOf(sqs: seq<Square>): (vs: seq<View>)
      requires forall k :: 0 <= k < |sqs| ==> Within(sqs[k], nodes)
      reads nodes
      ensures |vs| == |sqs| && Quads(vs)
      ensures forall k :: 0 <= k < |sqs| ==> vs[k] == View(ReadingsOf(sqs[k], influenceThreshold), SlotsOf(sqs[k]))
      decreases |sqs|
    {
      if sqs == [] then []
      else
        var n := |sqs| - 1;
        assert Within(sqs[n], nodes);
        ViewsOf(sqs[..n]) + [View(ReadingsOf(sqs[n], influenceThreshold), SlotsOf(sqs[n]))]
    }

    /** The states map of one square: computeControlNodeState for each
        corner whose strength reaches the threshold, top left (8), top
        right (4), bottom right (2), bottom left (1). */
    method CornerStates(sq: Square, ghost sectors: set<SectorSpace>) returns (states: seq<StateEntry>)
      requires ReadingsIn(ReadingsOf(sq, influenceThreshold), sectors)
      ensures states == SquareStates(ReadingsOf(sq, influenceThreshold))
      ensures Distinct(SectorsOf(states))
      ensures forall k :: 0 <= k < |states| ==> states[k].sector in sectors
    {
      ghost var rs := ReadingsOf(sq, influenceThreshold);
      assert Owned(rs[0]) && Owned(rs[1]) && Owned(rs[2]) && Owned(rs[3]);
      states := [];
      if sq.topLeft.strength >= influenceThreshold {
        states := AddCorner(states, sq.topLeft.territory.value, sq.topLeft.owner.value, TopLeftBit);
      }
      assert states == StatesUpTo(rs, 1);
      if sq.topRight.strength >= influenceThreshold {
        states := AddCorner(states, sq.topRight.territory.value, sq.topRight.owner.value, TopRightBit);
      }
      assert states == StatesUpTo(rs, 2);
      if sq.bottomRight.strength >= influenceThreshold {
        states := AddCorner(states, sq.bottomRight.territory.value, sq.bottomRight.owner.value, BottomRightBit);
      }
      assert states == StatesUpTo(rs, 3);
      if sq.bottomLeft.strength >= influenceThreshold {
        states := AddCorner(states, sq.bottomLeft.territory.value, sq.bottomLeft.owner.value, BottomLeftBit);
      }
      assert states == StatesUpTo(rs, |rs|);
      forall k | 0 <= k < |states|
        ensures states[k].sector in sectors
      {
        StatesUpToSectors(rs, 4, states[k].sector);
        assert SectorsOf(states)[k] == states[k].sector;
      }
      if |states| > 0 {
        StatesUpToSectors(rs, 4, states[0].sector);
      }
    }

    /** Writes the square's slots back to the caches of its nodes and moves
        the id counter on. */
    method StoreSlots(sq: Square, sl: Slots, id: nat)
      requires SlotsApart(sq) && CacheIds()
      requires Grows(SlotsOf(sq), sl) && nextId <= id && IdsBelow(sl, id)
      modifies sq.bottomLeft`above, sq.bottomLeft`right, sq.bottomRight`above, sq.topLeft`right, this`nextId
      ensures SlotsOf(sq) == sl && nextId == id && CacheIds() && Kept()
    {
      sq.bottomLeft.above, sq.bottomLeft.right := sl.left, sl.bottom;
      sq.bottomRight.above := sl.right;
      sq.topLeft.right := sl.top;
      nextId := id;
      assert sl.left == sl.Get(Left) && sl.bottom == sl.Get(Bottom) && sl.right == sl.Get(Right) && sl.top == sl.Get(Top);
    }

    /** The work of computeTerritories' inner loop for one square, on
        its slots: the states map of its corners, then each entry
        interpreted in turn. It returns the square's slots and the id
        counter as they end up. */
    method ComputeSquare(sq: Square, ghost sectors: set<SectorSpace>) returns (sl: Slots, id: nat)
      requires CacheIds() && SectorsOk(sectors)
      requires Within(sq, nodes) && ReadingsIn(ReadingsOf(sq, influenceThreshold), sectors)
      modifies MapsOf(sectors)
      ensures var rs := old(ReadingsOf(sq, influenceThreshold));
        && (sl, id) == FillAll(old(SlotsOf(sq)), StatesFills(SquareStates(rs)), old(SpotsOf(sq, offset)), old(nextId))
        && Traced(View(rs, sl))
        && forall s, o :: s in sectors ==>
             MapOf(s, o).contents == ApplyPairs(old(MapOf(s, o).contents), Pairs(Table(PackOf(rs, s, OwnerFilter(o))), sl))
      ensures Grows(old(SlotsOf(sq)), sl) && old(nextId) <= id && IdsBelow(sl, id)
    {
      ghost var rs := ReadingsOf(sq, influenceThreshold);
      var sp := SpotsOf(sq, offset);
      var states := CornerStates(sq, sectors);
      var sl0 := SlotsOf(sq);
      assert IdsBelow(sl0, nextId);
      FillAllEffect(sl0, StatesFills(states), sp, nextId);
      FillAllIds(sl0, StatesFills(states), sp, nextId);
      sl, id := InterpretStates(sl0, sp, nextId, states, sectors);
      forall s, o | s in sectors
        ensures MapOf(s, o).contents == ApplyPairs(old(MapOf(s, o).contents), Pairs(Table(PackOf(rs, s, OwnerFilter(o))), sl))
      {
        SquarePairsPacked(rs, s, o, sl);
      }
    }

    /** The body of computeTerritories' inner loop for one square. The
        links it adds to each sector's map are those of the
        marching-squares case of that sector's corners; the points it
        caches stay where they are for the squares that follow. */
    method TraceSquare(sq: Square, ghost sectors: set<SectorSpace>)
      requires SlotsApart(sq) && CacheIds() && SectorsOk(sectors)
      requires Within(sq, nodes) && ReadingsIn(ReadingsOf(sq, influenceThreshold), sectors)
      modifies sq.bottomLeft`above, sq.bottomLeft`right, sq.bottomRight`above, sq.topLeft`right, this`nextId
      modifies MapsOf(sectors)
      ensures CacheIds() && Kept()
      ensures var rs := ReadingsOf(sq, influenceThreshold);
        && (SlotsOf(sq), nextId) == FillAll(old(SlotsOf(sq)), StatesFills(SquareStates(rs)), old(SpotsOf(sq, offset)), old(nextId))
        && Traced(View(rs, SlotsOf(sq)))
        && forall s, o :: s in sectors ==>
             MapOf(s, o).contents == ApplyPairs(old(MapOf(s, o).contents), Pairs(Table(PackOf(rs, s, OwnerFilter(o))), SlotsOf(sq)))
    {
      ghost var rs := ReadingsOf(sq, influenceThreshold);
      var sl, id := ComputeSquare(sq, sectors);
      assert unchanged(nodes) && nextId == old(nextId);
      StoreSlots(sq, sl, id);
      assert ReadingsOf(sq, influenceThreshold) == rs;
    }

    // -------------------------------------------------------------------
    // The contour pass over the grid

    /** After the control pass, with a positive threshold, every square
        reads as the corner encoding needs. */
    lemma GridReadings(sq: Square, sectors: set<SectorSpace>)
      requires Controls() && TerritoriesIn(sectors) && influenceThreshold > 0.0 && Within(sq, nodes)
      ensures ReadingsIn(ReadingsOf(sq, influenceThreshold), sectors)
    {
      ActiveIsOwned(sq.topLeft, influenceThreshold);
      ActiveIsOwned(sq.topRight, influenceThreshold);
      ActiveIsOwned(sq.bottomRight, influenceThreshold);
      ActiveIsOwned(sq.bottomLeft, influenceThreshold);
    }

    /** The squares computeTerritories has passed when it reaches square
        `j` of column `i`. */
    ghost function Swept(i: nat, j: nat): (sqs: seq<Square>)
      requires Squares() && i < nbrSquaresWidth && j <= nbrSquaresHeight
      ensures forall k :: 0 <= k < |sqs| ==> Within(sqs[k], nodes)
    {
      Visited(i) + columns[i][..j]
    }

    /** The pass is done for the squares `sqs`: each has its fragments
        cached, and each map holds what it held at `m0` followed by the
        links of those squares, in order. */
    ghost predicate Passed(sqs: seq<Square>, sectors: set<SectorSpace>, m0: imap<(SectorSpace, Owner), EdgeMap>)
      requires forall k :: 0 <= k < |sqs| ==> Within(sqs[k], nodes)
      reads nodes, MapsOf(sectors)
    {
      var vs := ViewsOf(sqs);
      && (forall k :: 0 <= k < |vs| ==> Traced(vs[k]))
      && forall s, o :: s in sectors ==>
           && (s, o) in m0 && m0[(s, o)].Wf()
           && MapOf(s, o).contents == ApplyPairs(m0[(s, o)], PackedPairs(vs, s, o))
    }

    /** `Swept` grows by one square at a time. */
    lemma SweptNext(i: nat, j: nat)
      requires Squares() && i < nbrSquaresWidth && j < nbrSquaresHeight
      ensures Swept(i, j + 1) == Swept(i, j) + [columns[i][j]]
    {
      assert columns[i][..j + 1] == columns[i][..j] + [columns[i][j]];
    }

    /** A column's sweep starts where the columns before it end and ends
        where the next column starts. */
    lemma SweptEnds(i: nat)
      requires Squares() && i < nbrSquaresWidth
      ensures Swept(i, 0) == Visited(i) && Swept(i, nbrSquaresHeight) == Visited(i + 1)
    {
      assert columns[i][..nbrSquaresHeight] == columns[i];
    }

    /** Across a square pass that keeps every node's readings and cached
        points, the views of the squares passed before only grow. */
    twostate lemma KeptEarlier(done: seq<Square>)
      requires forall k :: 0 <= k < |done| ==> Within(done[k], nodes)
      requires old(forall k :: 0 <= k < |done| ==> Traced(ViewsOf(done)[k]))
      requires Kept()
      ensures |old(ViewsOf(done))| == |ViewsOf(done)|
      ensures forall k :: 0 <= k < |done| ==> Earlier(old(ViewsOf(done))[k], ViewsOf(done)[k])
    {
      forall k | 0 <= k < |done|
        ensures Earlier(old(ViewsOf(done))[k], ViewsOf(done)[k])
      {
        assert Within(done[k], nodes);
      }
    }

    /** What one square's pass does to the record of the pass: the
        square joins the squares passed, with its links after theirs. */
    lemma PassedStep(done: seq<Square>, sq: Square, sectors: set<SectorSpace>, m0: imap<(SectorSpace, Owner), EdgeMap>,
                     before: seq<View>)
      requires forall k :: 0 <= k < |done| ==> Within(done[k], nodes)
      requires Within(sq, nodes)
      requires |before| == |done| && forall k :: 0 <= k < |done| ==> Earlier(before[k], ViewsOf(done)[k])
      requires Traced(View(ReadingsOf(sq, influenceThreshold), SlotsOf(sq)))
      requires forall s, o :: s in sectors ==> (s, o) in m0 && m0[(s, o)].Wf()
      requires Quads(before)
      requires forall s, o :: s in sectors ==>
        MapOf(s, o).contents == ApplyPairs(ApplyPairs(m0[(s, o)], PackedPairs(before, s, o)),
                                           Pairs(Table(PackOf(ReadingsOf(sq, influenceThreshold), s, OwnerFilter(o))), SlotsOf(sq)))
      ensures Passed(done + [sq], sectors, m0)
    {
      ghost var after := ViewsOf(done);
      ghost var v := View(ReadingsOf(sq, influenceThreshold), SlotsOf(sq));
      assert ViewsOf(done + [sq]) == after + [v];
      ExtendTraced(before, after, v);
      forall s, o | s in sectors
        ensures MapOf(s, o).contents == ApplyPairs(m0[(s, o)], PackedPairs(after + [v], s, o))
      {
        Extend(before, after, v, m0[(s, o)], s, o);
      }
    }

    /** One step of computeTerritories' inner loop: the squares already
        passed keep their cached fragments and their links, and the maps
        gain the links of square `j` of column `i`. */
    method TraceNext(i: nat, j: nat, ghost sectors: set<SectorSpace>, ghost m0: imap<(SectorSpace, Owner), EdgeMap>)
      requires Squares() && i < nbrSquaresWidth && j < nbrSquaresHeight
      requires Controls() && CacheIds() && TerritoriesIn(sectors) && SectorsOk(sectors) && influenceThreshold > 0.0
      requires Passed(Swept(i, j), sectors, m0)
      modifies nodes`above, nodes`right, this`nextId, MapsOf(sectors)
      ensures CacheIds() && Kept()
      ensures Passed(Swept(i, j + 1), sectors, m0)
    {
      var sq := columns[i][j];
      ghost var done := Swept(i, j);
      ghost var before := ViewsOf(done);
      SweptNext(i, j);
      GridReadings(sq, sectors);
      TraceSquare(sq, sectors);
      KeptEarlier(done);
      PassedStep(done, sq, sectors, m0, before);
    }

    /** The inner loop of computeTerritories for column `i`, top to
        bottom. */
    method TraceColumn(i: nat, ghost sectors: set<SectorSpace>, ghost m0: imap<(SectorSpace, Owner), EdgeMap>)
      requires Squares() && i < nbrSquaresWidth
      requires Controls() && CacheIds() && TerritoriesIn(sectors) && SectorsOk(sectors) && influenceThreshold > 0.0
      requires Passed(Visited(i), sectors, m0)
      modifies nodes`above, nodes`right, this`nextId, MapsOf(sectors)
      ensures Controls() && CacheIds() && TerritoriesIn(sectors) && Kept()
      ensures Passed(Visited(i + 1), sectors, m0)
    {
      SweptEnds(i);
      var j := 0;
      while j < nbrSquaresHeight
        invariant j <= nbrSquaresHeight
        invariant Controls() && CacheIds() && TerritoriesIn(sectors) && Kept()
        invariant Passed(Swept(i, j), sectors, m0)
      {
        TraceNext(i, j, sectors, m0);
        j := j + 1;
      }
    }

    /** The outer loop of computeTerritories: every column, left to
        right. */
    method TraceColumns(ghost sectors: set<SectorSpace>, ghost m0: imap<(SectorSpace, Owner), EdgeMap>)
      requires Squares()
      requires Controls() && CacheIds() && TerritoriesIn(sectors) && SectorsOk(sectors) && influenceThreshold > 0.0
      requires Passed(Visited(0), sectors, m0)
      modifies nodes`above, nodes`right, this`nextId, MapsOf(sectors)
      ensures Controls() && CacheIds() && Kept()
      ensures Passed(Visited(nbrSquaresWidth), sectors, m0)
    {
      var i := 0;
      while i < nbrSquaresWidth
        invariant i <= nbrSquaresWidth
        invariant Controls() && CacheIds() && TerritoriesIn(sectors) && Kept()
        invariant Passed(Visited(i), sectors, m0)
      {
        TraceColumn(i, sectors, m0);
        i := i + 1;
      }
    }

    /** computeTerritories: the control pass, then every square column by
        column. Every interior node holds its classification, every square
        has its fragments cached, and each sector's map for each owner gains
        the links of the squares in the order they were passed. */
    method ComputeTerritories(systems: seq<SystemInfo>, ghost sectors: set<SectorSpace>)
      requires Valid() && influenceThreshold > 0.0 && SectorsOk(sectors)
      requires forall k :: 0 <= k < |systems| ==> systems[k].sector in sectors
      modifies nodes, this`nextId, MapsOf(sectors)
      ensures Valid() && Squares()
      ensures forall n :: n in nodes && Interior(n) ==> Classified(n, systems)
      ensures var vs := ViewsOf(Visited(nbrSquaresWidth));
        && (forall k :: 0 <= k < |vs| ==> Traced(vs[k]))
        && forall s, o :: s in sectors ==>
             MapOf(s, o).contents == ApplyPairs(old(MapOf(s, o).contents), PackedPairs(vs, s, o))
    {
      ComputeSquaresControl(systems);
      assert forall s, o :: s in sectors ==> MapOf(s, o).contents == old(MapOf(s, o).contents);
      TraceTerritories(sectors);
    }

    /** The second half of computeTerritories: every square of the grid,
        column by column, after the control pass. */
    method TraceTerritories(ghost sectors: set<SectorSpace>)
      requires Valid() && influenceThreshold > 0.0 && SectorsOk(sectors) && TerritoriesIn(sectors)
      modifies nodes`above, nodes`right, this`nextId, MapsOf(sectors)
      ensures Valid() && Squares() && Kept()
      ensures var vs := ViewsOf(Visited(nbrSquaresWidth));
        && (forall k :: 0 <= k < |vs| ==> Traced(vs[k]))
        && forall s, o :: s in sectors ==>
             MapOf(s, o).contents == ApplyPairs(old(MapOf(s, o).contents), PackedPairs(vs, s, o))
    {
      ghost var m0 := imap p: (SectorSpace, Owner) | p.0 in sectors :: MapOf(p.0, p.1).contents;
      GridSquares();
      assert Passed(Visited(0), sectors, m0);
      TraceColumns(sectors, m0);
    }
  }

  /** The readings of a square's corners: every active corner has an
      ENNEMY or USER owner and a territory among `sectors`. */
  ghost predicate ReadingsIn(rs: seq<Reading>, sectors: set<SectorSpace>)
  {
    |rs| == 4 && forall c :: 0 <= c < 4 ==> Owned(rs[c]) && (rs[c].active ==> rs[c].sector.value in sectors)
  }
}
