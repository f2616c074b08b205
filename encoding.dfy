/** The corner encoding of computeTerritories: the per-square map from
    sector to a three-slot state (ENNEMY, USER, TERRITORY) that
    computeControlNodeState fills from the active corners. */
module Encoding {
  import opened Common
  import opened Territory
  import opened Cases

  /** What the square pass reads off one corner node: whether it is active
      (strength at least the threshold), its territory and its owner. */
  datatype Reading = Reading(active: bool, sector: Option<SectorSpace>, owner: Option<Owner>)

  /** The state object of one sector in one square. */
  datatype StateEntry = StateEntry(sector: SectorSpace, state: seq<int>)

  /** Every state has its three slots. */
  ghost predicate Slotted(states: seq<StateEntry>)
  {
    forall k :: 0 <= k < |states| ==> |states[k].state| == 3
  }

  /** The position of the entry of sector `s`, or -1 when it has none. */
  function Find(states: seq<StateEntry>, s: SectorSpace): (i: int)
    ensures -1 <= i < |states|
    ensures i >= 0 ==> states[i].sector == s
    ensures i < 0 ==> forall k :: 0 <= k < |states| ==> states[k].sector != s
  {
    FindBy(states, (e: StateEntry) => e.sector, s)
  }

  /** The state of sector `s`: its entry's, or all zeros when it has none. */
  function StateOf(states: seq<StateEntry>, s: SectorSpace): seq<int>
  {
    var i := Find(states, s);
    if i >= 0 then states[i].state else [0, 0, 0]
  }

  /** Add `value` to the owner's slot and to the TERRITORY slot. */
  function Bump(st: seq<int>, owner: Owner, value: int): seq<int>
    requires |st| == 3
  {
    var b := st[owner.Index() := st[owner.Index()] + value];
    b[2 := b[2] + value]
  }

  /** computeControlNodeState: bump the state of the sector's entry; a
      sector seen for the first time gets a new zero entry after the
      existing ones. */
  function AddCorner(states: seq<StateEntry>, s: SectorSpace, owner: Owner, value: int): (r: seq<StateEntry>)
    requires Slotted(states)
    ensures Slotted(r)
  {
    var i := Find(states, s);
    var st := Bump(if i >= 0 then states[i].state else [0, 0, 0], owner, value);
    if i >= 0 then states[i := StateEntry(s, st)] else states + [StateEntry(s, st)]
  }

  /** The sectors of the entries. */
  function SectorsOf(states: seq<StateEntry>): seq<SectorSpace>
  {
    seq(|states|, k requires 0 <= k < |states| => states[k].sector)
  }

  /** With one entry per sector, the entry found is the only one. */
  lemma FindUnique(states: seq<StateEntry>, s: SectorSpace, k: int)
    requires Distinct(SectorsOf(states)) && 0 <= k < |states| && states[k].sector == s
    ensures Find(states, s) == k
  {
    var f := Find(states, s);
    assert SectorsOf(states)[f] == SectorsOf(states)[k];
    DistinctAt(SectorsOf(states), f, k);
  }

  /** computeControlNodeState keeps one entry per sector and adds the
      sector at the end when it is new. */
  lemma AddCornerSectors(states: seq<StateEntry>, s: SectorSpace, owner: Owner, value: int)
    requires Slotted(states) && Distinct(SectorsOf(states))
    ensures Slotted(AddCorner(states, s, owner, value))
    ensures SectorsOf(AddCorner(states, s, owner, value))
            == if s in SectorsOf(states) then SectorsOf(states) else SectorsOf(states) + [s]
    ensures Distinct(SectorsOf(AddCorner(states, s, owner, value)))
  {
    var next := AddCorner(states, s, owner, value);
    var i := Find(states, s);
    if i >= 0 {
      assert SectorsOf(states)[i] == s;
      assert SectorsOf(next) == SectorsOf(states);
    } else {
      assert s !in SectorsOf(states);
      assert SectorsOf(next) == SectorsOf(states) + [s];
      DistinctSnoc(SectorsOf(states), s);
    }
  }

  /** computeControlNodeState bumps the state of its own sector and leaves
      every other sector's state as it was. */
  lemma AddCornerState(states: seq<StateEntry>, s: SectorSpace, owner: Owner, value: int, t: SectorSpace)
    requires Slotted(states) && Distinct(SectorsOf(states))
    ensures StateOf(AddCorner(states, s, owner, value), t)
            == if t == s then Bump(StateOf(states, s), owner, value) else StateOf(states, t)
  {
    var next := AddCorner(states, s, owner, value);
    AddCornerSectors(states, s, owner, value);
    var i := Find(states, s);
    var f := Find(states, t);
    if t == s {
      FindUnique(next, s, if i >= 0 then i else |states|);
    } else if f >= 0 {
      assert next[f] == states[f];
      FindUnique(next, t, f);
    } else {
      assert forall k :: 0 <= k < |next| ==> next[k].sector != t;
    }
  }

  /** What an active corner needs: a territory, and an owner that is ENNEMY
      or USER (the only owners the control pass assigns). */
  predicate Owned(r: Reading)
  {
    r.active ==> r.sector.Some? && r.owner.Some? && r.owner.value != TERRITORY
  }

  /** One corner of the square pass: active corners are added, inactive ones skipped. */
  function Step(states: seq<StateEntry>, r: Reading, value: int): seq<StateEntry>
    requires Slotted(states) && Owned(r)
  {
    if r.active then AddCorner(states, r.sector.value, r.owner.value, value) else states
  }

  lemma StepEffect(states: seq<StateEntry>, r: Reading, value: int, s: SectorSpace)
    requires Slotted(states) && Owned(r) && Distinct(SectorsOf(states))
    ensures Slotted(Step(states, r, value)) && Distinct(SectorsOf(Step(states, r, value)))
    ensures StateOf(Step(states, r, value), s)
            == if r.active && r.sector == Some(s) then Bump(StateOf(states, s), r.owner.value, value)
               else StateOf(states, s)
    ensures s in SectorsOf(Step(states, r, value)) <==> s in SectorsOf(states) || (r.active && r.sector == Some(s))
  {
    if r.active {
      AddCornerSectors(states, r.sector.value, r.owner.value, value);
      AddCornerState(states, r.sector.value, r.owner.value, value, s);
    }
  }

  /** The corner value of corner `c` (0 top left, 1 top right, 2 bottom right, 3 bottom left). */
  function CornerBit(c: int): int
  {
    if c == 0 then TopLeftBit else if c == 1 then TopRightBit else if c == 2 then BottomRightBit else BottomLeftBit
  }

  /** The square pass over the first `n` corners in the order top left,
      top right, bottom right, bottom left. */
  function StatesUpTo(rs: seq<Reading>, n: nat): seq<StateEntry>
    requires n <= |rs| && forall c :: 0 <= c < |rs| ==> Owned(rs[c])
    ensures Slotted(StatesUpTo(rs, n))
  {
    if n == 0 then [] else Step(StatesUpTo(rs, n - 1), rs[n - 1], CornerBit(n - 1))
  }

  /** The states map of a whole square. */
  function SquareStates(rs: seq<Reading>): seq<StateEntry>
    requires |rs| == 4 && forall c :: 0 <= c < 4 ==> Owned(rs[c])
  {
    StatesUpTo(rs, |rs|)
  }

  /** Corner `r` is active and belongs to sector `s`, owned by `o` when `o`
      is given. */
  predicate Counts(r: Reading, s: SectorSpace, o: Option<Owner>)
  {
    r.active && r.sector == Some(s) && (o.Some? ==> r.owner == o)
  }

  /** The sum of the corner values of the first `n` corners that count. */
  function PackUpTo(rs: seq<Reading>, s: SectorSpace, o: Option<Owner>, n: nat): int
    requires n <= |rs|
  {
    if n == 0 then 0 else PackUpTo(rs, s, o, n - 1) + (if Counts(rs[n - 1], s, o) then CornerBit(n - 1) else 0)
  }

  /** The four-bit number with the given corners set. */
  function Pack(tl: bool, tr: bool, br: bool, bl: bool): int
  {
    (if tl then 8 else 0) + (if tr then 4 else 0) + (if br then 2 else 0) + (if bl then 1 else 0)
  }

  lemma PackBits(tl: bool, tr: bool, br: bool, bl: bool)
    ensures 0 <= Pack(tl, tr, br, bl) < 16
    ensures Bit(Pack(tl, tr, br, bl), 8) == tl && Bit(Pack(tl, tr, br, bl), 4) == tr
    ensures Bit(Pack(tl, tr, br, bl), 2) == br && Bit(Pack(tl, tr, br, bl), 1) == bl
  {
  }

  function PackOf(rs: seq<Reading>, s: SectorSpace, o: Option<Owner>): int
    requires |rs| == 4
  {
    Pack(Counts(rs[0], s, o), Counts(rs[1], s, o), Counts(rs[2], s, o), Counts(rs[3], s, o))
  }

  /** After `n` corners exactly the sectors of the active corners so far
      have an entry, one each. */
  lemma {:induction false} StatesUpToSectors(rs: seq<Reading>, n: nat, s: SectorSpace)
    requires n <= |rs| && forall c :: 0 <= c < |rs| ==> Owned(rs[c])
    ensures Distinct(SectorsOf(StatesUpTo(rs, n)))
    ensures s in SectorsOf(StatesUpTo(rs, n)) <==> exists c :: 0 <= c < n && Counts(rs[c], s, None)
  {
    if n > 0 {
      StatesUpToSectors(rs, n - 1, s);
      var prev := StatesUpTo(rs, n - 1);
      StepEffect(prev, rs[n - 1], CornerBit(n - 1), s);
      if s in SectorsOf(StatesUpTo(rs, n)) && !Counts(rs[n - 1], s, None) {
        assert s in SectorsOf(prev);
      }
    }
  }

  /** After `n` corners, sector `s` has the state (ENNEMY bits, USER bits,
      all bits) of its counted corners so far. */
  lemma {:induction false} StatesUpToState(rs: seq<Reading>, n: nat, s: SectorSpace)
    requires n <= |rs| && forall c :: 0 <= c < |rs| ==> Owned(rs[c])
    ensures var st := StateOf(StatesUpTo(rs, n), s);
      && |st| == 3 && st[0] == PackUpTo(rs, s, Some(ENNEMY), n)
      && st[1] == PackUpTo(rs, s, Some(USER), n) && st[2] == PackUpTo(rs, s, None, n)
  {
    if n == 0 {
      assert StateOf([], s) == [0, 0, 0];
    } else {
      StatesUpToState(rs, n - 1, s);
      StatesUpToSectors(rs, n - 1, s);
      var prev := StatesUpTo(rs, n - 1);
      StepEffect(prev, rs[n - 1], CornerBit(n - 1), s);
      PackStep(rs, n, s, StateOf(prev, s), StateOf(StatesUpTo(rs, n), s));
    }
  }

  /** One corner's step of the packing: a counted corner adds its bit to
      its owner's slot and to the total, any other leaves the state alone. */
  lemma PackStep(rs: seq<Reading>, n: nat, s: SectorSpace, before: seq<int>, now: seq<int>)
    requires 0 < n <= |rs| && Owned(rs[n - 1]) && |before| == 3
    requires before[0] == PackUpTo(rs, s, Some(ENNEMY), n - 1) && before[1] == PackUpTo(rs, s, Some(USER), n - 1)
    requires before[2] == PackUpTo(rs, s, None, n - 1)
    requires now == if Counts(rs[n - 1], s, None) then Bump(before, rs[n - 1].owner.value, CornerBit(n - 1)) else before
    ensures |now| == 3 && now[0] == PackUpTo(rs, s, Some(ENNEMY), n)
    ensures now[1] == PackUpTo(rs, s, Some(USER), n) && now[2] == PackUpTo(rs, s, None, n)
  {
    var r, v := rs[n - 1], CornerBit(n - 1);
    if Counts(r, s, None) && r.owner == Some(ENNEMY) {
      assert now == [before[0] + v, before[1], before[2] + v];
    } else if Counts(r, s, None) {
      assert now == [before[0], before[1] + v, before[2] + v];
    }
  }

  lemma PackUpToFour(rs: seq<Reading>, s: SectorSpace, o: Option<Owner>)
    requires |rs| == 4
    ensures PackUpTo(rs, s, o, 4) == PackOf(rs, s, o)
  {
    assert PackUpTo(rs, s, o, 1) == (if Counts(rs[0], s, o) then 8 else 0);
    assert PackUpTo(rs, s, o, 2) == PackUpTo(rs, s, o, 1) + (if Counts(rs[1], s, o) then 4 else 0);
    assert PackUpTo(rs, s, o, 3) == PackUpTo(rs, s, o, 2) + (if Counts(rs[2], s, o) then 2 else 0);
  }

  /** The state of sector `s` after the square pass: slot ENNEMY holds the
      bits of its active ENNEMY corners, slot USER those of its active USER
      corners, and slot TERRITORY those of all its active corners; the pass
      keeps one entry per sector, for exactly the sectors of the active
      corners. */
  lemma StatesArePacked(rs: seq<Reading>, s: SectorSpace)
    requires |rs| == 4 && forall c :: 0 <= c < 4 ==> Owned(rs[c])
    ensures StateOf(SquareStates(rs), s)
            == [PackOf(rs, s, Some(ENNEMY)), PackOf(rs, s, Some(USER)), PackOf(rs, s, None)]
    ensures Distinct(SectorsOf(SquareStates(rs)))
    ensures s in SectorsOf(SquareStates(rs)) <==> exists c :: 0 <= c < 4 && Counts(rs[c], s, None)
  {
    StatesUpToState(rs, 4, s);
    StatesUpToSectors(rs, 4, s);
    PackUpToFour(rs, s, Some(ENNEMY));
    PackUpToFour(rs, s, Some(USER));
    PackUpToFour(rs, s, None);
  }

  /** The corner encoding: in every sector's state, ENNEMY and USER add up
      to TERRITORY, all three are in 0..15, TERRITORY has exactly the bits
      of the sector's active corners, and each active corner's bit is in
      exactly one of ENNEMY and USER, the one of its owner. */
  lemma CornerEncoding(rs: seq<Reading>, s: SectorSpace)
    requires |rs| == 4 && forall c :: 0 <= c < 4 ==> Owned(rs[c])
    ensures var st := StateOf(SquareStates(rs), s);
      && |st| == 3 && st[0] + st[1] == st[2]
      && 0 <= st[0] < 16 && 0 <= st[1] < 16 && 0 <= st[2] < 16
      && forall c :: 0 <= c < 4 ==>
           && (Bit(st[2], CornerBit(c)) <==> Counts(rs[c], s, None))
           && (Bit(st[0], CornerBit(c)) <==> Counts(rs[c], s, Some(ENNEMY)))
           && (Bit(st[1], CornerBit(c)) <==> Counts(rs[c], s, Some(USER)))
           && !(Bit(st[0], CornerBit(c)) && Bit(st[1], CornerBit(c)))
  {
    StatesArePacked(rs, s);
    PackBits(Counts(rs[0], s, None), Counts(rs[1], s, None), Counts(rs[2], s, None), Counts(rs[3], s, None));
    PackBits(Counts(rs[0], s, Some(ENNEMY)), Counts(rs[1], s, Some(ENNEMY)),
             Counts(rs[2], s, Some(ENNEMY)), Counts(rs[3], s, Some(ENNEMY)));
    PackBits(Counts(rs[0], s, Some(USER)), Counts(rs[1], s, Some(USER)),
             Counts(rs[2], s, Some(USER)), Counts(rs[3], s, Some(USER)));
  }
}
