/** The per-node classification of computeSquaresControl: the influence of
    every system is summed per sector (total and user-weighted), the
    sectors are ranked by total, and the node takes the strongest sector,
    the second strength and an owner. */
module Control {
  import opened Common
  import opened Territory
  import opened Overlap

  /** A system as the control pass sees it: its sector (the system's
      parent), the share of it the user has checked (`control`), and what
      the influence formula reads (coordinates and difficulty). */
  datatype SystemInfo = SystemInfo(sector: SectorSpace, control: real, coords: Coord, difficulty: int)

  /** The influence of a system on the point (x, y). The formula is kept
      abstract: any function of the system and the point. */
  type Influence = (SystemInfo, real, real) -> real

  /** One entry of the per-node map `sectorsStrength`. */
  datatype Tally = Tally(sector: SectorSpace, total: real, user: real)

  /** The position of sector `s`'s entry, or -1. */
  function FindTally(ts: seq<Tally>, s: SectorSpace): (i: int)
    ensures -1 <= i < |ts|
    ensures i >= 0 ==> ts[i].sector == s
    ensures i < 0 ==> forall k :: 0 <= k < |ts| ==> ts[k].sector != s
  {
    FindBy(ts, (e: Tally) => e.sector, s)
  }

  /** One system of the forEach: a positive strength is added to the total
      of its sector and, weighted by the system's control, to the user
      strength; a sector seen first gets a new entry at the end. */
  function Contribute(ts: seq<Tally>, sys: SystemInfo, strength: real): seq<Tally>
  {
    if strength > 0.0 then
      var i := FindTally(ts, sys.sector);
      if i >= 0 then ts[i := Tally(sys.sector, ts[i].total + strength, ts[i].user + strength * sys.control)]
      else ts + [Tally(sys.sector, strength, strength * sys.control)]
    else ts
  }

  /** `sectorsStrength` after the first `n` systems, for the node at (x, y). */
  function TallyOf(systems: seq<SystemInfo>, f: Influence, x: real, y: real, n: nat): seq<Tally>
    requires n <= |systems|
  {
    if n == 0 then [] else Contribute(TallyOf(systems, f, x, y, n - 1), systems[n - 1], f(systems[n - 1], x, y))
  }

  /** The reference sums: the positive influences of the first `n` systems
      of sector `s`, plain and weighted by control. */
  function SectorTotal(systems: seq<SystemInfo>, f: Influence, x: real, y: real, s: SectorSpace, n: nat): real
    requires n <= |systems|
  {
    if n == 0 then 0.0
    else
      var st := f(systems[n - 1], x, y);
      SectorTotal(systems, f, x, y, s, n - 1) + (if systems[n - 1].sector == s && st > 0.0 then st else 0.0)
  }

  function SectorUser(systems: seq<SystemInfo>, f: Influence, x: real, y: real, s: SectorSpace, n: nat): real
    requires n <= |systems|
  {
    if n == 0 then 0.0
    else
      var st := f(systems[n - 1], x, y);
      SectorUser(systems, f, x, y, s, n - 1)
        + (if systems[n - 1].sector == s && st > 0.0 then st * systems[n - 1].control else 0.0)
  }

  /** Some of the first `n` systems of sector `s` has a positive influence. */
  predicate Reaches(systems: seq<SystemInfo>, f: Influence, x: real, y: real, s: SectorSpace, n: nat)
    requires n <= |systems|
  {
    exists k :: 0 <= k < n && systems[k].sector == s && f(systems[k], x, y) > 0.0
  }

  function TallySectors(ts: seq<Tally>): seq<SectorSpace>
  {
    seq(|ts|, k requires 0 <= k < |ts| => ts[k].sector)
  }

  lemma ReachesStep(systems: seq<SystemInfo>, f: Influence, x: real, y: real, s: SectorSpace, n: nat)
    requires 0 < n <= |systems|
    ensures Reaches(systems, f, x, y, s, n)
            <==> Reaches(systems, f, x, y, s, n - 1) || (systems[n - 1].sector == s && f(systems[n - 1], x, y) > 0.0)
  {
    if Reaches(systems, f, x, y, s, n - 1) {
      var k :| 0 <= k < n - 1 && systems[k].sector == s && f(systems[k], x, y) > 0.0;
      assert 0 <= k < n;
    }
    if Reaches(systems, f, x, y, s, n) {
      var k :| 0 <= k < n && systems[k].sector == s && f(systems[k], x, y) > 0.0;
      if k < n - 1 {
        assert Reaches(systems, f, x, y, s, n - 1);
      }
    }
  }

  /** A contribution adds its sector at the end when it is new. */
  lemma ContributeSectors(ts: seq<Tally>, sys: SystemInfo, strength: real)
    ensures TallySectors(Contribute(ts, sys, strength))
            == if strength > 0.0 && sys.sector !in TallySectors(ts) then TallySectors(ts) + [sys.sector]
               else TallySectors(ts)
  {
    var i := FindTally(ts, sys.sector);
    if i >= 0 {
      assert TallySectors(ts)[i] == sys.sector;
    }
  }

  /** The map has one entry per sector, for exactly the sectors some
      system reaches. */
  lemma {:induction false} TallyKeys(systems: seq<SystemInfo>, f: Influence, x: real, y: real, n: nat)
    requires n <= |systems|
    ensures Distinct(TallySectors(TallyOf(systems, f, x, y, n)))
    ensures forall s :: s in TallySectors(TallyOf(systems, f, x, y, n)) <==> Reaches(systems, f, x, y, s, n)
  {
    if n > 0 {
      TallyKeys(systems, f, x, y, n - 1);
      var prev := TallyOf(systems, f, x, y, n - 1);
      ContributeSectors(prev, systems[n - 1], f(systems[n - 1], x, y));
      if f(systems[n - 1], x, y) > 0.0 && systems[n - 1].sector !in TallySectors(prev) {
        DistinctSnoc(TallySectors(prev), systems[n - 1].sector);
      }
      forall s ensures s in TallySectors(TallyOf(systems, f, x, y, n)) <==> Reaches(systems, f, x, y, s, n) {
        ReachesStep(systems, f, x, y, s, n);
      }
    }
  }

  /** With one entry per sector, an entry is identified by its sector. */
  lemma TallyUnique(ts: seq<Tally>, a: int, b: int)
    requires Distinct(TallySectors(ts)) && 0 <= a < |ts| && 0 <= b < |ts| && ts[a].sector == ts[b].sector
    ensures a == b
  {
    assert TallySectors(ts)[a] == TallySectors(ts)[b];
    DistinctAt(TallySectors(ts), a, b);
  }

  /** Entry `k` of the map after `n` systems holds its sector's reference
      sums, and its total is positive. */
  predicate EntryIsSums(systems: seq<SystemInfo>, f: Influence, x: real, y: real, n: nat, k: int)
    requires n <= |systems|
  {
    var ts := TallyOf(systems, f, x, y, n);
    0 <= k < |ts| ==>
      && ts[k].total == SectorTotal(systems, f, x, y, ts[k].sector, n)
      && ts[k].user == SectorUser(systems, f, x, y, ts[k].sector, n)
      && ts[k].total > 0.0
  }

  /** The map agrees with the reference sums: each entry holds its
      sector's total and user sums, and every total is positive. */
  lemma {:induction false} TallyIsSectorSums(systems: seq<SystemInfo>, f: Influence, x: real, y: real, n: nat)
    requires n <= |systems|
    ensures forall k :: EntryIsSums(systems, f, x, y, n, k)
  {
    if n > 0 {
      TallyIsSectorSums(systems, f, x, y, n - 1);
      forall k ensures EntryIsSums(systems, f, x, y, n, k) {
        EntryStep(systems, f, x, y, n - 1, k);
      }
    }
  }

  /** One system keeps entry `k` equal to its sector's reference sums. */
  lemma EntryStep(systems: seq<SystemInfo>, f: Influence, x: real, y: real, p: nat, k: int)
    requires p < |systems| && forall j :: EntryIsSums(systems, f, x, y, p, j)
    ensures EntryIsSums(systems, f, x, y, p + 1, k)
  {
    TallyKeys(systems, f, x, y, p);
    var prev := TallyOf(systems, f, x, y, p);
    var sys := systems[p];
    var st := f(sys, x, y);
    var ts := Contribute(prev, sys, st);
    assert ts == TallyOf(systems, f, x, y, p + 1);
    if 0 <= k < |ts| {
      var sec := ts[k].sector;
      if st <= 0.0 || (k < |prev| && sec != sys.sector) {
        assert ts[k] == prev[k];
        assert EntryIsSums(systems, f, x, y, p, k);
      } else {
        var i := FindTally(prev, sys.sector);
        if i >= 0 {
          TallyUnique(prev, k, i);
          assert EntryIsSums(systems, f, x, y, p, i);
        } else {
          assert sys.sector !in TallySectors(prev);
          SumsVanish(systems, f, x, y, sys.sector, p);
        }
      }
    }
  }

  /** A sector no system reaches has zero sums. */
  lemma {:induction false} SumsVanish(systems: seq<SystemInfo>, f: Influence, x: real, y: real, s: SectorSpace, n: nat)
    requires n <= |systems| && !Reaches(systems, f, x, y, s, n)
    ensures SectorTotal(systems, f, x, y, s, n) == 0.0 && SectorUser(systems, f, x, y, s, n) == 0.0
  {
    if n > 0 {
      ReachesStep(systems, f, x, y, s, n);
      SumsVanish(systems, f, x, y, s, n - 1);
    }
  }

  /** The systems.forEach of one node: sectorsStrength built system by
      system, in insertion order. */
  method TallyAt(systems: seq<SystemInfo>, f: Influence, x: real, y: real) returns (ts: seq<Tally>)
    ensures ts == TallyOf(systems, f, x, y, |systems|)
  {
    ts := [];
    for n := 0 to |systems|
      invariant ts == TallyOf(systems, f, x, y, n)
    {
      var sys := systems[n];
      var strength := f(sys, x, y);
      ghost var prev := ts;
      if strength > 0.0 {
        var i := FindTally(ts, sys.sector);
        if i >= 0 {
          ts := ts[i := Tally(sys.sector, ts[i].total + strength, ts[i].user + strength * sys.control)];
          ghost var next := Contribute(prev, sys, strength);
          assert |ts| == |next| && forall k :: 0 <= k < |ts| ==> ts[k] == next[k];
        } else {
          ts := ts + [Tally(sys.sector, strength, strength * sys.control)];
          ghost var next := Contribute(prev, sys, strength);
          assert |ts| == |next| && forall k :: 0 <= k < |ts| ==> ts[k] == next[k];
        }
      }
    }
  }

  // ---------------------------------------------------------------------
  // Ranking and classification

  /** The sort keys: Array.sort with `b.totalStrength - a.totalStrength`
      orders by descending total, that is by ascending negated total, and
      keeps insertion order among equal totals. */
  function Descending(ts: seq<Tally>): (keys: seq<real>)
    ensures |keys| == |ts| && forall k :: 0 <= k < |ts| ==> keys[k] == -ts[k].total
  {
    seq(|ts|, k requires 0 <= k < |ts| => -ts[k].total)
  }

  /** What the control pass writes into a node. */
  datatype Classification = Classification(strength: real, strength2nd: real,
                                           territory: Option<SectorSpace>, territory2nd: Option<SectorSpace>,
                                           owner: Owner)

  /** The first two entries of the sorted map give the strongest and the
      second sector; the node is the user's when, in the strongest sector,
      the user strength outweighs the rest. */
  function Classify(ts: seq<Tally>): Classification
  {
    var order := SortFrom(0, Descending(ts));
    if |ts| == 0 then Classification(0.0, 0.0, None, None, ENNEMY)
    else
      var first := ts[order[0]];
      var owner := if first.total - first.user < first.user then USER else ENNEMY;
      if |ts| == 1 then Classification(first.total, 0.0, Some(first.sector), None, owner)
      else
        var second := ts[order[1]];
        Classification(first.total, second.total, Some(first.sector), Some(second.sector), owner)
  }

  /** Entry `m` has the largest total, and no earlier entry has it. */
  predicate Strongest(ts: seq<Tally>, m: int)
  {
    0 <= m < |ts| && forall k :: 0 <= k < |ts| ==> ts[k].total <= ts[m].total && (k < m ==> ts[k].total < ts[m].total)
  }

  /** Entry `m2` has the largest total once `m` is set aside, and no
      earlier entry other than `m` has it. */
  predicate SecondStrongest(ts: seq<Tally>, m: int, m2: int)
  {
    0 <= m2 < |ts| && m2 != m
    && forall k :: 0 <= k < |ts| && k != m ==> ts[k].total <= ts[m2].total && (k < m2 ==> ts[k].total < ts[m2].total)
  }

  /** The ranking: the node takes the strongest sector (the first of the
      largest totals) and its total; the second strength and sector are
      those of the strongest of the others, or 0 and none when there is
      no other; with no sector at all, strength and second strength are 0,
      there is no territory, and the owner is ENNEMY. */
  lemma ClassifyRanks(ts: seq<Tally>)
    ensures var c := Classify(ts);
      && (|ts| == 0 ==> c == Classification(0.0, 0.0, None, None, ENNEMY))
      && (|ts| > 0 ==> exists m :: Strongest(ts, m) && c.territory == Some(ts[m].sector) && c.strength == ts[m].total
                         && (c.owner == USER <==> ts[m].total - ts[m].user < ts[m].user)
                         && (|ts| == 1 ==> c.strength2nd == 0.0 && c.territory2nd == None)
                         && (|ts| > 1 ==> exists m2 :: (SecondStrongest(ts, m, m2)
                               && c.territory2nd == Some(ts[m2].sector) && c.strength2nd == ts[m2].total)))
  {
    var keys := Descending(ts);
    var order := SortFrom(0, keys);
    if |ts| > 0 {
      var m := order[0];
      forall k | 0 <= k < |ts| ensures ts[k].total <= ts[m].total && (k < m ==> ts[k].total < ts[m].total) {
        assert k in order;
        var j :| 0 <= j < |order| && order[j] == k;
        if j > 0 {
          assert Before(keys, order[0], order[j]);
        }
      }
      assert Strongest(ts, m);
      if |ts| > 1 {
        var m2 := order[1];
        assert Before(keys, order[0], order[1]);
        forall k | 0 <= k < |ts| && k != m ensures ts[k].total <= ts[m2].total && (k < m2 ==> ts[k].total < ts[m2].total) {
          assert k in order;
          var j :| 0 <= j < |order| && order[j] == k;
          if j > 1 {
            assert Before(keys, order[1], order[j]);
          }
        }
        assert SecondStrongest(ts, m, m2);
      }
    }
  }

  /** The strongest sector is at least as strong as the second, and both
      strengths are non-negative when every total is. */
  lemma StrengthOrdered(ts: seq<Tally>)
    requires forall k :: 0 <= k < |ts| ==> ts[k].total > 0.0
    ensures Classify(ts).strength >= Classify(ts).strength2nd >= 0.0
    ensures Classify(ts).strength > 0.0 <==> |ts| > 0
  {
    ClassifyRanks(ts);
  }

  /** With every system of sector `s` at control `c`, the sector's user
      strength is `c` times its total. */
  lemma {:induction false} UniformUser(systems: seq<SystemInfo>, f: Influence, x: real, y: real, s: SectorSpace, n: nat, c: real)
    requires n <= |systems| && forall k :: 0 <= k < |systems| && systems[k].sector == s ==> systems[k].control == c
    ensures SectorUser(systems, f, x, y, s, n) == c * SectorTotal(systems, f, x, y, s, n)
  {
    if n > 0 {
      UniformUser(systems, f, x, y, s, n - 1, c);
    }
  }

  /** With a positive total `t` of which the user holds `u = c * t`, the
      user outweighs the rest exactly when its share is above one half. */
  lemma HalfRule(t: real, u: real, c: real)
    requires t > 0.0 && u == c * t
    ensures t - u < u <==> c > 0.5
  {
    assert t - c * t - c * t == t * (1.0 - 2.0 * c);
    if c > 0.5 {
      assert t * (1.0 - 2.0 * c) < 0.0;
    } else {
      assert t * (1.0 - 2.0 * c) >= 0.0;
    }
  }

  /** The owner rule under uniform control of the strongest sector: when
      every system of the sector a node is given has control `c`, the node
      is the user's iff c > 1/2; so fully checked systems (c = 1) give USER
      and unchecked ones (c = 0) ENNEMY. A node no sector reaches is
      ENNEMY. */
  lemma UniformOwner(systems: seq<SystemInfo>, f: Influence, x: real, y: real, c: real)
    requires var cl := Classify(TallyOf(systems, f, x, y, |systems|));
      forall k :: 0 <= k < |systems| && cl.territory == Some(systems[k].sector) ==> systems[k].control == c
    ensures var ts := TallyOf(systems, f, x, y, |systems|);
      Classify(ts).owner == USER <==> |ts| > 0 && c > 0.5
  {
    var ts := TallyOf(systems, f, x, y, |systems|);
    if |ts| > 0 {
      var m := SortFrom(0, Descending(ts))[0];
      var first := ts[m];
      assert Classify(ts).owner == if first.total - first.user < first.user then USER else ENNEMY;
      assert Classify(ts).territory == Some(first.sector);
      assert forall k :: 0 <= k < |systems| && systems[k].sector == first.sector ==> systems[k].control == c;
      UniformEntry(systems, f, x, y, c, ts, m);
      HalfRule(first.total, first.user, c);
    }
  }

  /** When every system of the sector of entry `m` of the tally `ts` has
      control `c`, the entry's user strength is `c` times its positive
      total. */
  lemma UniformEntry(systems: seq<SystemInfo>, f: Influence, x: real, y: real, c: real, ts: seq<Tally>, m: int)
    requires ts == TallyOf(systems, f, x, y, |systems|) && 0 <= m < |ts|
    requires forall k :: 0 <= k < |systems| && systems[k].sector == ts[m].sector ==> systems[k].control == c
    ensures ts[m].user == c * ts[m].total && ts[m].total > 0.0
  {
    TallyIsSectorSums(systems, f, x, y, |systems|);
    assert EntryIsSums(systems, f, x, y, |systems|, m);
    UniformUser(systems, f, x, y, ts[m].sector, |systems|, c);
  }

  /** What the control pass leaves in a node: the strongest strength is at
      least the second and both are non-negative; the node has a territory
      exactly when its strength is positive, and that territory is the
      sector of one of the systems; the owner is ENNEMY or USER. */
  lemma ClassifyTallied(systems: seq<SystemInfo>, f: Influence, x: real, y: real)
    ensures var c := Classify(TallyOf(systems, f, x, y, |systems|));
      && c.strength >= c.strength2nd >= 0.0
      && (c.strength > 0.0 <==> c.territory.Some?)
      && c.owner != TERRITORY
      && (c.territory.Some? ==> exists k :: 0 <= k < |systems| && systems[k].sector == c.territory.value)
  {
    var ts := TallyOf(systems, f, x, y, |systems|);
    TallyIsSectorSums(systems, f, x, y, |systems|);
    assert forall k :: 0 <= k < |ts| ==> ts[k].total > 0.0 by {
      forall k | 0 <= k < |ts| ensures ts[k].total > 0.0 {
        assert EntryIsSums(systems, f, x, y, |systems|, k);
      }
    }
    StrengthOrdered(ts);
    ClassifyRanks(ts);
    if |ts| > 0 {
      var m := SortFrom(0, Descending(ts))[0];
      assert Classify(ts).territory == Some(ts[m].sector);
      TallyKeys(systems, f, x, y, |systems|);
      assert TallySectors(ts)[m] == ts[m].sector;
      assert Reaches(systems, f, x, y, ts[m].sector, |systems|);
    }
  }
}
