/** The contour layer of computeTerritories, on values: the four edge
    slots of a square where interpolated points are cached, how
    interpretState fills them, the links it adds to a sector's fragment
    maps, and the reference definition of everything a pass over the
    grid adds: for each square, sector and owner, the marching-squares
    fragments of the four-bit pattern of that square's corners. */
module Contour {
  import opened Common
  import opened Fragments
  import opened Territory
  import opened Cases
  import opened Encoding

  /** What the four edges of a square have cached. */
  datatype Slots = Slots(left: Option<Pt>, bottom: Option<Pt>, right: Option<Pt>, top: Option<Pt>) {
    function Get(e: Edge): Option<Pt>
    {
      match e
      case Left => left
      case Bottom => bottom
      case Right => right
      case Top => top
    }

    function Put(e: Edge, p: Pt): (r: Slots)
      ensures r.Get(e) == Some(p)
      ensures forall d :: d != e ==> r.Get(d) == Get(d)
    {
      match e
      case Left => this.(left := Some(p))
      case Bottom => this.(bottom := Some(p))
      case Right => this.(right := Some(p))
      case Top => this.(top := Some(p))
    }
  }

  /** Where the contour crosses each edge (the interpolated coordinates). */
  datatype Spots = Spots(left: Coord, bottom: Coord, right: Coord, top: Coord) {
    function Get(e: Edge): Coord
    {
      match e
      case Left => left
      case Bottom => bottom
      case Right => right
      case Top => top
    }
  }

  /** Every slot filled in `a` holds the same point in `b`. */
  predicate Grows(a: Slots, b: Slots)
  {
    && (a.left.Some? ==> b.left == a.left)
    && (a.bottom.Some? ==> b.bottom == a.bottom)
    && (a.right.Some? ==> b.right == a.right)
    && (a.top.Some? ==> b.top == a.top)
  }

  /** `if (slot == null) slot = lerp(...)`: an empty slot gets a new point,
      with the next id, at its edge's crossing; a filled slot is kept. */
  function Fill(sl: Slots, e: Edge, sp: Spots, id: nat): (Slots, nat)
  {
    if sl.Get(e).None? then (sl.Put(e, Pt(id, sp.Get(e).x, sp.Get(e).y)), id + 1) else (sl, id)
  }

  /** The fills of `es`, in order. */
  function FillAll(sl: Slots, es: seq<Edge>, sp: Spots, id: nat): (Slots, nat)
    decreases |es|
  {
    if es == [] then (sl, id)
    else
      var next := Fill(sl, es[0], sp, id);
      FillAll(next.0, es[1..], sp, next.1)
  }

  /** Filling keeps what was cached, fills every slot of `es`, leaves the
      others alone, and puts each new point at its edge's crossing with an
      id taken from `id` onwards. */
  lemma {:induction false} FillAllEffect(sl: Slots, es: seq<Edge>, sp: Spots, id: nat)
    ensures var (r, next) := FillAll(sl, es, sp, id);
      && Grows(sl, r) && id <= next
      && (forall e :: e in es ==> r.Get(e).Some?)
      && (forall e :: e !in es ==> r.Get(e) == sl.Get(e))
      && (forall e :: sl.Get(e).None? && r.Get(e).Some? ==>
            id <= r.Get(e).value.id < next && r.Get(e).value.x == sp.Get(e).x && r.Get(e).value.y == sp.Get(e).y)
    decreases |es|
  {
    if es != [] {
      var (s2, id2) := Fill(sl, es[0], sp, id);
      FillAllEffect(s2, es[1..], sp, id2);
      forall e | e in es ensures e == es[0] || e in es[1..] {
      }
    }
  }

  lemma {:induction false} FillAllAppend(sl: Slots, es: seq<Edge>, ds: seq<Edge>, sp: Spots, id: nat)
    ensures FillAll(sl, es + ds, sp, id)
            == var mid := FillAll(sl, es, sp, id); FillAll(mid.0, ds, sp, mid.1)
    decreases |es|
  {
    if es == [] {
      assert es + ds == ds;
    } else {
      assert (es + ds)[0] == es[0] && (es + ds)[1..] == es[1..] + ds;
      var next := Fill(sl, es[0], sp, id);
      FillAllAppend(next.0, es[1..], ds, sp, next.1);
    }
  }

  /** The slots a fragment list fills, in the order interpretState fills
      them. */
  function FillOrder(fs: seq<Fragment>): (es: seq<Edge>)
    ensures forall f :: f in fs ==> f.first in es && f.second in es
  {
    if fs == [] then [] else [fs[0].first, fs[0].second] + FillOrder(fs[1..])
  }

  /** Both ends of every fragment are cached. */
  predicate Filled(fs: seq<Fragment>, sl: Slots)
  {
    forall f :: f in fs ==> sl.Get(f.from).Some? && sl.Get(f.to).Some?
  }

  /** A table case's fills cache both ends of each of its fragments. */
  lemma TableFilled(k: int, sl: Slots, sp: Spots, id: nat)
    ensures Filled(Table(k), FillAll(sl, FillOrder(Table(k)), sp, id).0)
  {
    TableWellFormed(k);
    FillAllEffect(sl, FillOrder(Table(k)), sp, id);
  }

  /** Two fills in a row. */
  lemma FillTwo(sl: Slots, a: Edge, b: Edge, sp: Spots, id: nat)
    ensures FillAll(sl, [a, b], sp, id) == var m := Fill(sl, a, sp, id); Fill(m.0, b, sp, m.1)
  {
    var m := Fill(sl, a, sp, id);
    var n := Fill(m.0, b, sp, m.1);
    assert [a, b][1..] == [b] && [b][1..] == [];
    assert FillAll(n.0, [], sp, n.1) == n;
    assert FillAll(m.0, [b], sp, m.1) == n;
  }

  /** The link of one fragment whose ends are cached. */
  lemma PairsOne(f: Fragment, sl: Slots)
    requires sl.Get(f.from).Some? && sl.Get(f.to).Some?
    ensures Pairs([f], sl) == [(sl.Get(f.from).value, sl.Get(f.to).value)]
  {
    assert [f][1..] == [];
  }

  /** One fragment, then another: their fills compose, both are cached
      afterwards, and the two links land in the map in order. */
  lemma TwoFragments(sl0: Slots, f: Fragment, g: Fragment, sp: Spots, id0: nat, m0: EdgeMap)
    requires m0.Wf() && WellFormed(f) && WellFormed(g)
    ensures var (sl1, id1) := FillAll(sl0, [f.first, f.second], sp, id0);
            var (sl2, id2) := FillAll(sl1, [g.first, g.second], sp, id1);
      && FillAll(sl0, FillOrder([f, g]), sp, id0) == (sl2, id2)
      && Filled([f, g], sl2)
      && ApplyPairs(ApplyPairs(m0, Pairs([f], sl1)), Pairs([g], sl2)) == ApplyPairs(m0, Pairs([f, g], sl2))
  {
    var (sl1, id1) := FillAll(sl0, [f.first, f.second], sp, id0);
    var (sl2, id2) := FillAll(sl1, [g.first, g.second], sp, id1);
    assert [f, g][1..] == [g] && [g][1..] == [] && [f] + [g] == [f, g];
    OneFragment(g);
    assert FillOrder([f, g]) == [f.first, f.second] + FillOrder([g]);
    FillAllAppend(sl0, [f.first, f.second], [g.first, g.second], sp, id0);
    FillAllEffect(sl0, [f.first, f.second], sp, id0);
    FillAllEffect(sl1, [g.first, g.second], sp, id1);
    PairsStable([f], sl1, sl2);
    PairsAppend([f], [g], sl2);
    ApplyAppend(m0, Pairs([f], sl2), Pairs([g], sl2));
  }

  /** Three fragment lists in a row: their fills compose, and the links of
      the first two read the same once the later fills are done. */
  lemma ThreeLists(sl0: Slots, fs0: seq<Fragment>, fs1: seq<Fragment>, fs2: seq<Fragment>, sp: Spots, id0: nat)
    requires Filled(fs0, FillAll(sl0, FillOrder(fs0), sp, id0).0)
    ensures var (sl1, id1) := FillAll(sl0, FillOrder(fs0), sp, id0);
            var (sl2, id2) := FillAll(sl1, FillOrder(fs1), sp, id1);
            var (sl3, id3) := FillAll(sl2, FillOrder(fs2), sp, id2);
      && FillAll(sl0, FillOrder(fs0) + FillOrder(fs1) + FillOrder(fs2), sp, id0) == (sl3, id3)
      && Grows(sl1, sl2) && Grows(sl2, sl3)
      && Filled(fs0, sl3) && Pairs(fs0, sl1) == Pairs(fs0, sl3)
  {
    var (sl1, id1) := FillAll(sl0, FillOrder(fs0), sp, id0);
    var (sl2, id2) := FillAll(sl1, FillOrder(fs1), sp, id1);
    FillAllAppend(sl0, FillOrder(fs0), FillOrder(fs1), sp, id0);
    FillAllAppend(sl0, FillOrder(fs0) + FillOrder(fs1), FillOrder(fs2), sp, id0);
    FillAllEffect(sl1, FillOrder(fs1) + FillOrder(fs2), sp, id1);
    FillAllAppend(sl1, FillOrder(fs1), FillOrder(fs2), sp, id1);
    FillAllEffect(sl1, FillOrder(fs1), sp, id1);
    FillAllEffect(sl2, FillOrder(fs2), sp, id2);
    PairsStable(fs0, sl1, FillAll(sl2, FillOrder(fs2), sp, id2).0);
  }

  /** One fragment alone. */
  lemma OneFragment(f: Fragment)
    ensures FillOrder([f]) == [f.first, f.second]
  {
    assert [f][1..] == [];
  }

  lemma {:induction false} PairsAppend(fs: seq<Fragment>, gs: seq<Fragment>, sl: Slots)
    ensures Pairs(fs + gs, sl) == Pairs(fs, sl) + Pairs(gs, sl)
    decreases |fs|
  {
    if fs == [] {
      assert fs + gs == gs;
    } else {
      assert (fs + gs)[0] == fs[0] && (fs + gs)[1..] == fs[1..] + gs;
      PairsAppend(fs[1..], gs, sl);
    }
  }

  /** The links `TerritoryUtils.add` receives, `from` point to `to` point,
      for the fragments whose ends are cached. */
  function Pairs(fs: seq<Fragment>, sl: Slots): seq<(Pt, Pt)>
  {
    if fs == [] then []
    else
      var a, b := sl.Get(fs[0].from), sl.Get(fs[0].to);
      (if a.Some? && b.Some? then [(a.value, b.value)] else []) + Pairs(fs[1..], sl)
  }

  /** Once both ends of every fragment are cached, each fragment adds one
      link, from its `from` point to its `to` point. */
  lemma {:induction false} PairsOfFilled(fs: seq<Fragment>, sl: Slots)
    requires Filled(fs, sl)
    ensures |Pairs(fs, sl)| == |fs|
    ensures forall k :: 0 <= k < |fs| ==> Pairs(fs, sl)[k] == (sl.Get(fs[k].from).value, sl.Get(fs[k].to).value)
  {
    if fs != [] {
      assert fs[0] in fs;
      assert Filled(fs[1..], sl) by {
        forall f | f in fs[1..] ensures f in fs {
        }
      }
      PairsOfFilled(fs[1..], sl);
      assert forall k :: 1 <= k < |fs| ==> fs[k] == fs[1..][k - 1];
    }
  }

  /** Later fills do not change the links of fragments already cached. */
  lemma PairsStable(fs: seq<Fragment>, a: Slots, b: Slots)
    requires Filled(fs, a) && Grows(a, b)
    ensures Filled(fs, b) && Pairs(fs, a) == Pairs(fs, b)
  {
    forall f | f in fs ensures b.Get(f.from) == a.Get(f.from) && b.Get(f.to) == a.Get(f.to) {
      assert a.Get(f.from).Some? && a.Get(f.to).Some?;
    }
  }

  /** Map.set for each link in turn. */
  function ApplyPairs(m: EdgeMap, ps: seq<(Pt, Pt)>): (r: EdgeMap)
    requires m.Wf()
    ensures r.Wf()
    decreases |ps|
  {
    if ps == [] then m else ApplyPairs(m.Set(ps[0].0, ps[0].1), ps[1..])
  }

  lemma {:induction false} ApplyAppend(m: EdgeMap, ps: seq<(Pt, Pt)>, qs: seq<(Pt, Pt)>)
    requires m.Wf()
    ensures ApplyPairs(m, ps + qs) == ApplyPairs(ApplyPairs(m, ps), qs)
    decreases |ps|
  {
    if ps == [] {
      assert ps + qs == qs;
    } else {
      assert (ps + qs)[0] == ps[0] && (ps + qs)[1..] == ps[1..] + qs;
      ApplyAppend(m.Set(ps[0].0, ps[0].1), ps[1..], qs);
    }
  }

  /** What the links do to a map: every point that starts a link becomes a
      key, mapped to the end of its last link; every other key keeps its
      target. */
  lemma ApplyPairsLinks(m: EdgeMap, ps: seq<(Pt, Pt)>)
    requires m.Wf()
    ensures var r := ApplyPairs(m, ps);
      && (forall a :: a in r.links <==> a in m.links || exists k :: 0 <= k < |ps| && ps[k].0 == a)
      && (forall a :: a in m.links && (forall k :: 0 <= k < |ps| ==> ps[k].0 != a) ==> r.links[a] == m.links[a])
      && (forall k :: 0 <= k < |ps| && LastStart(ps, k) ==> r.links[ps[k].0] == ps[k].1)
  {
    ApplyPairsKeys(m, ps);
    ApplyPairsKeeps(m, ps);
    ApplyPairsLast(m, ps);
  }

  lemma {:induction false} ApplyPairsKeys(m: EdgeMap, ps: seq<(Pt, Pt)>)
    requires m.Wf()
    ensures forall a :: a in ApplyPairs(m, ps).links <==> a in m.links || exists k :: 0 <= k < |ps| && ps[k].0 == a
    decreases |ps|
  {
    if ps != [] {
      var m1 := m.Set(ps[0].0, ps[0].1);
      var tail := ps[1..];
      ApplyPairsKeys(m1, tail);
      var r := ApplyPairs(m, ps);
      assert r == ApplyPairs(m1, tail);
      forall a ensures a in r.links <==> a in m.links || exists k :: 0 <= k < |ps| && ps[k].0 == a {
        if exists k :: 0 <= k < |tail| && tail[k].0 == a {
          var k :| 0 <= k < |tail| && tail[k].0 == a;
          assert ps[k + 1].0 == a;
        }
        if exists k :: 0 <= k < |ps| && ps[k].0 == a {
          var k :| 0 <= k < |ps| && ps[k].0 == a;
          if k > 0 {
            assert tail[k - 1].0 == a;
          }
        }
      }
    }
  }

  lemma {:induction false} ApplyPairsKeeps(m: EdgeMap, ps: seq<(Pt, Pt)>)
    requires m.Wf()
    ensures forall a :: a in m.links && (forall k :: 0 <= k < |ps| ==> ps[k].0 != a) ==> a in ApplyPairs(m, ps).links && ApplyPairs(m, ps).links[a] == m.links[a]
    decreases |ps|
  {
    if ps != [] {
      var m1 := m.Set(ps[0].0, ps[0].1);
      var tail := ps[1..];
      ApplyPairsKeeps(m1, tail);
      var r := ApplyPairs(m, ps);
      assert r == ApplyPairs(m1, tail);
      forall a | a in m.links && (forall k :: 0 <= k < |ps| ==> ps[k].0 != a) ensures a in r.links && r.links[a] == m.links[a] {
        assert ps[0].0 != a;
        forall k | 0 <= k < |tail| ensures tail[k].0 != a {
          assert tail[k] == ps[k + 1];
        }
      }
    }
  }

  /** No later link starts where link `k` starts. */
  predicate LastStart(ps: seq<(Pt, Pt)>, k: int)
    requires 0 <= k < |ps|
  {
    forall j :: k < j < |ps| ==> ps[j].0 != ps[k].0
  }

  lemma {:induction false} ApplyPairsLast(m: EdgeMap, ps: seq<(Pt, Pt)>)
    requires m.Wf()
    ensures forall k :: 0 <= k < |ps| && LastStart(ps, k) ==> ps[k].0 in ApplyPairs(m, ps).links && ApplyPairs(m, ps).links[ps[k].0] == ps[k].1
    decreases |ps|
  {
    if ps != [] {
      var m1 := m.Set(ps[0].0, ps[0].1);
      var tail := ps[1..];
      ApplyPairsLast(m1, tail);
      var r := ApplyPairs(m, ps);
      assert r == ApplyPairs(m1, tail);
      forall k | 0 < k < |ps| && LastStart(ps, k) ensures ps[k].0 in r.links && r.links[ps[k].0] == ps[k].1 {
        assert tail[k - 1] == ps[k];
        forall j | k - 1 < j < |tail| ensures tail[j].0 != tail[k - 1].0 {
          assert tail[j] == ps[j + 1];
        }
        assert LastStart(tail, k - 1);
      }
      if LastStart(ps, 0) {
        forall j | 0 <= j < |tail| ensures tail[j].0 != ps[0].0 {
          assert tail[j] == ps[j + 1];
        }
        ApplyPairsKeeps(m1, tail);
      }
    }
  }

  // ---------------------------------------------------------------------
  // One square

  /** The slots the three interpretState calls of one state entry fill,
      owner ENNEMY, then USER, then TERRITORY. */
  function EntryFills(e: StateEntry): seq<Edge>
    requires |e.state| == 3
  {
    FillOrder(Table(e.state[0])) + FillOrder(Table(e.state[1])) + FillOrder(Table(e.state[2]))
  }

  /** The slots of a whole states map, entry by entry in insertion order. */
  function StatesFills(states: seq<StateEntry>): seq<Edge>
    requires Slotted(states)
  {
    if states == [] then [] else StatesFills(states[..|states| - 1]) + EntryFills(states[|states| - 1])
  }

  predicate EntryFilled(e: StateEntry, sl: Slots)
    requires |e.state| == 3
  {
    Filled(Table(e.state[0]), sl) && Filled(Table(e.state[1]), sl) && Filled(Table(e.state[2]), sl)
  }

  predicate StatesFilled(states: seq<StateEntry>, sl: Slots)
    requires Slotted(states)
  {
    forall k :: 0 <= k < |states| ==> EntryFilled(states[k], sl)
  }

  /** The links the entry adds to the map of sector `s` and owner `o`. */
  function EntryPairs(e: StateEntry, s: SectorSpace, o: Owner, sl: Slots): seq<(Pt, Pt)>
    requires |e.state| == 3
  {
    if e.sector == s then Pairs(Table(e.state[o.Index()]), sl) else []
  }

  /** The links a whole states map adds to the map of `s` and `o`. */
  function StatesPairs(states: seq<StateEntry>, s: SectorSpace, o: Owner, sl: Slots): seq<(Pt, Pt)>
    requires Slotted(states)
  {
    if states == [] then []
    else StatesPairs(states[..|states| - 1], s, o, sl) + EntryPairs(states[|states| - 1], s, o, sl)
  }

  lemma EntryFillsFill(e: StateEntry, sl: Slots, sp: Spots, id: nat)
    requires |e.state| == 3
    ensures var r := FillAll(sl, EntryFills(e), sp, id).0;
      Grows(sl, r) && EntryFilled(e, r)
  {
    var r := FillAll(sl, EntryFills(e), sp, id).0;
    FillAllEffect(sl, EntryFills(e), sp, id);
    TableWellFormed(e.state[0]);
    TableWellFormed(e.state[1]);
    TableWellFormed(e.state[2]);
  }

  /** Once a states map's fragments are cached, later fills keep them
      cached. */
  lemma FilledStable(states: seq<StateEntry>, a: Slots, b: Slots)
    requires Slotted(states) && StatesFilled(states, a) && Grows(a, b)
    ensures StatesFilled(states, b)
  {
    forall k | 0 <= k < |states| ensures EntryFilled(states[k], b) {
      var e := states[k];
      assert EntryFilled(e, a);
      PairsStable(Table(e.state[0]), a, b);
      PairsStable(Table(e.state[1]), a, b);
      PairsStable(Table(e.state[2]), a, b);
    }
  }

  /** Once a states map's fragments are cached, later fills change none of
      its links. */
  lemma {:induction false} StatesPairsStable(states: seq<StateEntry>, s: SectorSpace, o: Owner, a: Slots, b: Slots)
    requires Slotted(states) && StatesFilled(states, a) && Grows(a, b)
    ensures StatesFilled(states, b) && StatesPairs(states, s, o, a) == StatesPairs(states, s, o, b)
  {
    FilledStable(states, a, b);
    if states != [] {
      var pre := states[..|states| - 1];
      var e := states[|states| - 1];
      assert forall k :: 0 <= k < |pre| ==> pre[k] == states[k];
      StatesPairsStable(pre, s, o, a, b);
      assert EntryFilled(e, a);
      PairsStable(Table(e.state[o.Index()]), a, b);
    }
  }

  /** With one entry per sector, the links for `s` and `o` are the table
      fragments of the `o` slot of `s`'s state (none when `s` has no
      entry, whose state is all zeros). */
  lemma {:induction false} StatesPairsOfState(states: seq<StateEntry>, s: SectorSpace, o: Owner, sl: Slots)
    requires Slotted(states) && Distinct(SectorsOf(states))
    ensures |StateOf(states, s)| == 3
    ensures StatesPairs(states, s, o, sl) == Pairs(Table(StateOf(states, s)[o.Index()]), sl)
  {
    if states == [] {
      assert StateOf(states, s) == [0, 0, 0];
    } else {
      var n := |states| - 1;
      var pre, e := states[..n], states[n];
      StateOfLast(states, s);
      StatesPairsOfState(pre, s, o, sl);
      assert StatesPairs(states, s, o, sl) == StatesPairs(pre, s, o, sl) + EntryPairs(e, s, o, sl);
      if e.sector == s {
        EmptyStates();
        assert StateOf(pre, s)[o.Index()] == 0;
        assert StatesPairs(pre, s, o, sl) == [];
      } else {
        assert EntryPairs(e, s, o, sl) == [];
      }
    }
  }

  /** The state of `s` in a map with one entry per sector: the last
      entry's when it is `s`'s, otherwise the one in the rest (all zeros
      when the last entry is `s`'s, which the rest then lacks). */
  lemma StateOfLast(states: seq<StateEntry>, s: SectorSpace)
    requires Slotted(states) && Distinct(SectorsOf(states)) && states != []
    ensures var n := |states| - 1; var pre := states[..n];
      && Slotted(pre) && Distinct(SectorsOf(pre))
      && (states[n].sector == s ==> StateOf(states, s) == states[n].state && StateOf(pre, s) == [0, 0, 0])
      && (states[n].sector != s ==> StateOf(states, s) == StateOf(pre, s))
  {
    var n := |states| - 1;
    var pre := states[..n];
    assert forall k :: 0 <= k < |pre| ==> pre[k] == states[k];
    assert SectorsOf(pre) == SectorsOf(states)[..n];
    DistinctPrefix(SectorsOf(states), n);
    if states[n].sector == s {
      forall k | 0 <= k < |pre| ensures pre[k].sector != s {
        DistinctAt(SectorsOf(states), k, n);
      }
      assert Find(pre, s) < 0;
      FindUnique(states, s, n);
    } else {
      var i := Find(pre, s);
      if i >= 0 {
        FindUnique(states, s, i);
      }
    }
  }

  /** The slot of a state array that owner `o`'s calls read, as a filter
      on corners: ENNEMY and USER corners count for their own owner, all
      active corners for TERRITORY. */
  function OwnerFilter(o: Owner): Option<Owner>
  {
    if o == TERRITORY then None else Some(o)
  }

  /** The links one square adds for sector `s` and owner `o` are the table
      fragments of the pattern of `s`'s active corners (owned by `o`,
      unless `o` is TERRITORY). */
  lemma SquarePairsPacked(rs: seq<Reading>, s: SectorSpace, o: Owner, sl: Slots)
    requires |rs| == 4 && forall c :: 0 <= c < 4 ==> Owned(rs[c])
    ensures StatesPairs(SquareStates(rs), s, o, sl) == Pairs(Table(PackOf(rs, s, OwnerFilter(o))), sl)
  {
    StatesArePacked(rs, s);
    StatesPairsOfState(SquareStates(rs), s, o, sl);
  }

  /** Once a square's states are cached, so are the fragments of every
      sector's pattern. */
  lemma PackedFilled(rs: seq<Reading>, s: SectorSpace, o: Owner, sl: Slots)
    requires |rs| == 4 && forall c :: 0 <= c < 4 ==> Owned(rs[c])
    requires StatesFilled(SquareStates(rs), sl)
    ensures Filled(Table(PackOf(rs, s, OwnerFilter(o))), sl)
  {
    var states := SquareStates(rs);
    StatesArePacked(rs, s);
    var i := Find(states, s);
    if i >= 0 {
      assert EntryFilled(states[i], sl);
    } else {
      assert StateOf(states, s) == [0, 0, 0];
    }
  }

  // ---------------------------------------------------------------------
  // The whole grid

  /** What the pass reads of one square: its four corners, and its slots. */
  datatype View = View(rs: seq<Reading>, sl: Slots)

  predicate ViewOk(v: View)
  {
    |v.rs| == 4 && forall c :: 0 <= c < 4 ==> Owned(v.rs[c])
  }

  /** Every view reads four corners. */
  predicate Quads(vs: seq<View>)
  {
    forall k :: 0 <= k < |vs| ==> |vs[k].rs| == 4
  }

  /** The reference: the links a pass over the squares `vs` adds to the
      map of sector `s` and owner `o`, square after square. */
  function PackedPairs(vs: seq<View>, s: SectorSpace, o: Owner): seq<(Pt, Pt)>
    requires Quads(vs)
  {
    if vs == [] then []
    else
      var v := vs[|vs| - 1];
      assert |v.rs| == 4 && Quads(vs[..|vs| - 1]);
      PackedPairs(vs[..|vs| - 1], s, o) + Pairs(Table(PackOf(v.rs, s, OwnerFilter(o))), v.sl)
  }

  /** Views `a` are taken before views `b` of the same squares: the corners
      read the same, the slots only grew, and `a`'s fragments were cached. */
  predicate Earlier(a: View, b: View)
  {
    ViewOk(a) && a.rs == b.rs && Grows(a.sl, b.sl) && StatesFilled(SquareStates(a.rs), a.sl)
  }

  lemma {:induction false} PackedPairsStable(a: seq<View>, b: seq<View>, s: SectorSpace, o: Owner)
    requires |a| == |b| && forall k :: 0 <= k < |a| ==> Earlier(a[k], b[k])
    ensures Quads(a) && Quads(b)
    ensures PackedPairs(a, s, o) == PackedPairs(b, s, o)
  {
    if a != [] {
      var n := |a| - 1;
      assert forall k :: 0 <= k < n ==> a[..n][k] == a[k] && b[..n][k] == b[k];
      PackedPairsStable(a[..n], b[..n], s, o);
      assert Earlier(a[n], b[n]);
      PackedFilled(a[n].rs, s, o, a[n].sl);
      PackedAgree(a[n], b[n], s, o);
    }
  }

  lemma PackedAgree(a: View, b: View, s: SectorSpace, o: Owner)
    requires Earlier(a, b)
    ensures Pairs(Table(PackOf(a.rs, s, OwnerFilter(o))), a.sl) == Pairs(Table(PackOf(b.rs, s, OwnerFilter(o))), b.sl)
  {
    PackedFilled(a.rs, s, o, a.sl);
    PairsStable(Table(PackOf(a.rs, s, OwnerFilter(o))), a.sl, b.sl);
  }

  /** A square whose pass is done: its fragments are all cached. */
  predicate Traced(v: View)
  {
    ViewOk(v) && StatesFilled(SquareStates(v.rs), v.sl)
  }

  /** A square traced earlier stays traced: later fills only add slots. */
  lemma StillTraced(a: View, b: View)
    requires Earlier(a, b)
    ensures Traced(b)
  {
    var states := SquareStates(a.rs);
    forall k | 0 <= k < |states| ensures EntryFilled(states[k], b.sl) {
      var e := states[k];
      assert EntryFilled(e, a.sl);
      PairsStable(Table(e.state[0]), a.sl, b.sl);
      PairsStable(Table(e.state[1]), a.sl, b.sl);
      PairsStable(Table(e.state[2]), a.sl, b.sl);
    }
  }

  /** After one more square, every square passed so far is traced. */
  lemma ExtendTraced(before: seq<View>, after: seq<View>, v: View)
    requires |before| == |after| && forall k :: 0 <= k < |before| ==> Earlier(before[k], after[k])
    requires Traced(v)
    ensures forall k :: 0 <= k < |after + [v]| ==> Traced((after + [v])[k])
  {
    forall k | 0 <= k < |after| ensures Traced(after[k]) {
      StillTraced(before[k], after[k]);
    }
  }

  /** The pass over one more square: the earlier squares keep their
      fragments cached and their links, so the links of the whole prefix
      are those of the earlier squares, then those of the new square. */
  lemma Extend(before: seq<View>, after: seq<View>, v: View, m0: EdgeMap, s: SectorSpace, o: Owner)
    requires |before| == |after| && forall k :: 0 <= k < |before| ==> Earlier(before[k], after[k])
    requires Traced(v) && m0.Wf()
    ensures Quads(before) && Quads(after + [v])
    ensures ApplyPairs(m0, PackedPairs(after + [v], s, o))
            == ApplyPairs(ApplyPairs(m0, PackedPairs(before, s, o)), Pairs(Table(PackOf(v.rs, s, OwnerFilter(o))), v.sl))
  {
    PackedPairsStable(before, after, s, o);
    assert (after + [v])[..|after|] == after;
    ApplyAppend(m0, PackedPairs(before, s, o), Pairs(Table(PackOf(v.rs, s, OwnerFilter(o))), v.sl));
  }

  /** One more entry of a states map: its fills follow the earlier ones,
      and its links follow theirs, which the later fills leave alone. */
  lemma StatesStep(states: seq<StateEntry>, k: nat, a: Slots, b: Slots, s: SectorSpace, o: Owner)
    requires Slotted(states) && k < |states|
    requires StatesFilled(states[..k], a) && Grows(a, b)
    ensures StatesFills(states[..k + 1]) == StatesFills(states[..k]) + EntryFills(states[k])
    ensures StatesPairs(states[..k + 1], s, o, b) == StatesPairs(states[..k], s, o, a) + EntryPairs(states[k], s, o, b)
  {
    var p, q := states[..k], states[..k + 1];
    assert q[..|q| - 1] == p && q[|q| - 1] == states[k];
    StatesPairsStable(p, s, o, a, b);
  }

  /** ... and once the entry is filled too, the longer prefix is filled. */
  lemma StatesStepFilled(states: seq<StateEntry>, k: nat, a: Slots, b: Slots)
    requires Slotted(states) && k < |states|
    requires StatesFilled(states[..k], a) && Grows(a, b) && EntryFilled(states[k], b)
    ensures StatesFilled(states[..k + 1], b)
  {
    FilledStable(states[..k], a, b);
    assert states[..k + 1] == states[..k] + [states[k]];
    FilledSnoc(states[..k], states[k], b);
  }

  /** Interpreting entry `k` after the first `k` continues the fills of
      the states map and keeps the earlier slots. */
  lemma FillsNext(sl0: Slots, sp: Spots, id0: nat, states: seq<StateEntry>, k: nat,
                  sl: Slots, id: nat, sl': Slots, id': nat)
    requires Slotted(states) && k < |states|
    requires (sl, id) == FillAll(sl0, StatesFills(states[..k]), sp, id0) && StatesFilled(states[..k], sl)
    requires (sl', id') == FillAll(sl, EntryFills(states[k]), sp, id) && EntryFilled(states[k], sl')
    ensures Grows(sl, sl')
    ensures (sl', id') == FillAll(sl0, StatesFills(states[..k + 1]), sp, id0)
    ensures StatesFilled(states[..k + 1], sl')
  {
    FillAllAppend(sl0, StatesFills(states[..k]), EntryFills(states[k]), sp, id0);
    FillAllEffect(sl, EntryFills(states[k]), sp, id);
    StatesStep(states, k, sl, sl', states[k].sector, ENNEMY);
    StatesStepFilled(states, k, sl, sl');
  }

  lemma FilledSnoc(p: seq<StateEntry>, e: StateEntry, sl: Slots)
    requires Slotted(p) && |e.state| == 3 && StatesFilled(p, sl) && EntryFilled(e, sl)
    ensures Slotted(p + [e]) && StatesFilled(p + [e], sl)
  {
    var q := p + [e];
    forall j | 0 <= j < |q| ensures |q[j].state| == 3 && EntryFilled(q[j], sl) {
      if j < |p| {
        assert q[j] == p[j];
      }
    }
  }
}
