/** Value-level definitions the task operations are specified against. */
module TaskSpec {
  import opened Common
  import opened TaskTree
  import opened Backups
  import opened Checking

  /** The galaxy's counters: how many sectors, systems and planets it has,
      and how many of each are completed. */
  datatype Stats = Stats(sectors: int, sectorsDone: int, systems: int, systemsDone: int,
                         planets: int, planetsDone: int)
  {
    function Plus(o: Stats): Stats
    {
      Stats(sectors + o.sectors, sectorsDone + o.sectorsDone, systems + o.systems,
            systemsDone + o.systemsDone, planets + o.planets, planetsDone + o.planetsDone)
    }

    function Minus(o: Stats): Stats
    {
      Stats(sectors - o.sectors, sectorsDone - o.sectorsDone, systems - o.systems,
            systemsDone - o.systemsDone, planets - o.planets, planetsDone - o.planetsDone)
    }

    /** The counters with `d` added (`adding`) or taken away. */
    function Shift(d: Stats, adding: bool): Stats
    {
      if adding then Plus(d) else Minus(d)
    }

    /** Adds `d` to the completed counter of kind `k`; galaxies and moons
        have none. */
    function BumpDone(k: TaskType, d: int): (r: Stats)
      ensures k == SECTOR ==> r == this.(sectorsDone := sectorsDone + d)
      ensures k == SYSTEM ==> r == this.(systemsDone := systemsDone + d)
      ensures k == PLANET ==> r == this.(planetsDone := planetsDone + d)
      ensures k == GALAXY || k == MOON ==> r == this
    {
      match k
      case SECTOR => this.(sectorsDone := sectorsDone + d)
      case SYSTEM => this.(systemsDone := systemsDone + d)
      case PLANET => this.(planetsDone := planetsDone + d)
      case _ => this
    }
  }

  /** `s` with the tasks of `a` put in (`v`) or taken out (`!v`). */
  function Marked(s: set<TaskId>, a: set<TaskId>, v: bool): (r: set<TaskId>)
    ensures v ==> r == s + a
    ensures !v ==> r == s - a
  {
    if v then s + a else s - a
  }

  /** Marking `a` and then `b` marks their union. */
  lemma MarkedTwice(s: set<TaskId>, a: set<TaskId>, b: set<TaskId>, v: bool)
    ensures Marked(Marked(s, a, v), b, v) == Marked(s, a + b, v)
  {
  }

  const Zero := Stats(0, 0, 0, 0, 0, 0)

  lemma PlusAssoc(a: Stats, b: Stats, c: Stats)
    ensures a.Plus(b).Plus(c) == a.Plus(b.Plus(c))
  {
  }

  lemma PlusZero(s: Stats)
    ensures s.Plus(Zero) == s
  {
  }

  /** What one task adds to the counters: sectors, systems and planets
      count, and count as completed when checked. */
  function Unit(k: TaskType, c: bool): (r: Stats)
    ensures k == GALAXY || k == MOON ==> r == Zero
  {
    var d := if c then 1 else 0;
    match k
    case SECTOR => Stats(1, d, 0, 0, 0, 0)
    case SYSTEM => Stats(0, 0, 1, d, 0, 0)
    case PLANET => Stats(0, 0, 0, 0, 1, d)
    case _ => Zero
  }

  /** The tasks of `cs` of kind `k` outside `ex`. */
  ghost function Of(kind: map<TaskId, TaskType>, cs: set<TaskId>, ex: set<TaskId>, k: TaskType): set<TaskId>
  {
    set x | x in cs && x in kind && kind[x] == k && x !in ex
  }

  /** How many tasks of `cs` of kind `k` lie outside `ex`. */
  ghost function Done(kind: map<TaskId, TaskType>, cs: set<TaskId>, ex: set<TaskId>, k: TaskType): nat
  {
    |Of(kind, cs, ex, k)|
  }

  /** Checking one more task moves the count of its kind by one, if it is
      counted at all. */
  lemma DoneAdd(kind: map<TaskId, TaskType>, cs: set<TaskId>, ex: set<TaskId>, k: TaskType, t: TaskId)
    requires t !in cs
    ensures Done(kind, cs + {t}, ex, k) == Done(kind, cs, ex, k) + (if t in kind && kind[t] == k && t !in ex then 1 else 0)
  {
    var a, b := Of(kind, cs, ex, k), Of(kind, cs + {t}, ex, k);
    if t in kind && kind[t] == k && t !in ex {
      assert b == a + {t} && t !in a;
    } else {
      assert b == a;
    }
  }

  /** The stats with each completed counter lowered by the count of the
      checked, counted tasks of its kind. */
  ghost function Slack(st: Stats, kind: map<TaskId, TaskType>, cs: set<TaskId>, ex: set<TaskId>): Stats
  {
    Stats(st.sectors, st.sectorsDone - Done(kind, cs, ex, SECTOR),
          st.systems, st.systemsDone - Done(kind, cs, ex, SYSTEM),
          st.planets, st.planetsDone - Done(kind, cs, ex, PLANET))
  }

  /** Bumping a counter lowers or raises the slack by as much. */
  lemma SlackBump(st: Stats, kind: map<TaskId, TaskType>, cs: set<TaskId>, ex: set<TaskId>, k: TaskType, d: int)
    ensures Slack(st.BumpDone(k, d), kind, cs, ex) == Slack(st, kind, cs, ex).BumpDone(k, d)
  {
  }

  /** Flipping one counted task and bumping its counter by the same amount
      keeps the slack. */
  lemma SlackFlip(st: Stats, kind: map<TaskId, TaskType>, cs: set<TaskId>, ex: set<TaskId>, t: TaskId, v: bool)
    requires t in kind && (t in cs) != v
    ensures var cs' := if v then cs + {t} else cs - {t};
            var d := if t !in ex then (if v then 1 else -1) else 0;
            Slack(st.BumpDone(kind[t], d), kind, cs', ex) == Slack(st, kind, cs, ex)
  {
    if v {
      DoneAdd(kind, cs, ex, SECTOR, t);
      DoneAdd(kind, cs, ex, SYSTEM, t);
      DoneAdd(kind, cs, ex, PLANET, t);
    } else {
      var c0 := cs - {t};
      assert c0 + {t} == cs;
      DoneAdd(kind, c0, ex, SECTOR, t);
      DoneAdd(kind, c0, ex, SYSTEM, t);
      DoneAdd(kind, c0, ex, PLANET, t);
    }
  }

  /** One `setChecked` frame: its own flip, whatever the nested calls did
      while keeping the slack, and its own counter bump keep the slack. */
  lemma SlackStep(st0: Stats, st: Stats, kind: map<TaskId, TaskType>, cs0: set<TaskId>, cs: set<TaskId>,
                  ex: set<TaskId>, t: TaskId, v: bool)
    requires t in kind && (t in cs0) != v
    requires Slack(st, kind, cs, ex) == Slack(st0, kind, if v then cs0 + {t} else cs0 - {t}, ex)
    ensures Slack(st.BumpDone(kind[t], if t !in ex then (if v then 1 else -1) else 0), kind, cs, ex)
            == Slack(st0, kind, cs0, ex)
  {
    var d := if t !in ex then (if v then 1 else -1) else 0;
    SlackFlip(st0, kind, cs0, ex, t, v);
    SlackBump(st0, kind, if v then cs0 + {t} else cs0 - {t}, ex, kind[t], d);
    SlackBump(st, kind, cs, ex, kind[t], d);
  }

  /** The counters `st` carried from checked set `cs0` to `cs1`: each
      completed counter moved by how many more checked, counted tasks of
      its kind there are. */
  ghost function Resync(st: Stats, kind: map<TaskId, TaskType>, cs0: set<TaskId>, cs1: set<TaskId>,
                        ex: set<TaskId>): Stats
  {
    Stats(st.sectors, st.sectorsDone + Done(kind, cs1, ex, SECTOR) - Done(kind, cs0, ex, SECTOR),
          st.systems, st.systemsDone + Done(kind, cs1, ex, SYSTEM) - Done(kind, cs0, ex, SYSTEM),
          st.planets, st.planetsDone + Done(kind, cs1, ex, PLANET) - Done(kind, cs0, ex, PLANET))
  }

  /** Keeping the slack while the checked set moves is moving the counters
      as Resync says, and nothing else. */
  lemma ResyncSlack(st: Stats, st': Stats, kind: map<TaskId, TaskType>, cs0: set<TaskId>, cs1: set<TaskId>,
                    ex: set<TaskId>)
    ensures Slack(st', kind, cs1, ex) == Slack(st, kind, cs0, ex) <==> st' == Resync(st, kind, cs0, cs1, ex)
  {
  }

  /** How many elements of `s` are in `cs`. */
  function CountIn(s: seq<TaskId>, cs: set<TaskId>): nat
  {
    if s == [] then 0 else CountIn(s[..|s| - 1], cs) + (if s[|s| - 1] in cs then 1 else 0)
  }

  /** The count is at most the length, and reaches it exactly when every
      element is in `cs`. */
  lemma {:induction false} CountInBound(s: seq<TaskId>, cs: set<TaskId>)
    ensures CountIn(s, cs) <= |s|
    ensures CountIn(s, cs) == |s| <==> forall x :: x in s ==> x in cs
    ensures CountIn(s, cs) == 0 <==> forall x :: x in s ==> x !in cs
  {
    CountInAll(s, cs);
    CountInNone(s, cs);
  }

  lemma {:induction false} CountInAll(s: seq<TaskId>, cs: set<TaskId>)
    ensures CountIn(s, cs) <= |s|
    ensures CountIn(s, cs) == |s| <==> forall x :: x in s ==> x in cs
  {
    if s != [] {
      var p, x := s[..|s| - 1], s[|s| - 1];
      CountInAll(p, cs);
      assert s == p + [x];
      if forall y :: y in s ==> y in cs {
        assert forall y :: y in p ==> y in cs;
      } else {
        var y :| y in s && y !in cs;
        assert y in p || y == x;
      }
    }
  }

  lemma {:induction false} CountInNone(s: seq<TaskId>, cs: set<TaskId>)
    ensures CountIn(s, cs) == 0 <==> forall x :: x in s ==> x !in cs
  {
    if s != [] {
      var p, x := s[..|s| - 1], s[|s| - 1];
      CountInNone(p, cs);
      assert s == p + [x];
      if forall y :: y in s ==> y !in cs {
        assert forall y :: y in p ==> y !in cs;
      } else {
        var y :| y in s && y in cs;
        assert y in p || y == x;
      }
    }
  }

  /** JavaScript's `Math.round(sum / n)` for a positive `n`: the nearest
      integer, halves rounded up. */
  function RoundDiv(sum: int, n: int): (r: int)
    requires n > 0
    ensures n * (2 * r - 1) <= 2 * sum < n * (2 * r + 1)
  {
    (2 * sum + n) / (2 * n)
  }

  /** The mean of values between `lo` and `hi`, rounded, stays between
      them. */
  lemma RoundDivBounds(sum: int, n: int, lo: int, hi: int)
    requires n > 0 && lo * n <= sum <= hi * n
    ensures lo <= RoundDiv(sum, n) <= hi
  {
    var r := RoundDiv(sum, n);
    Twice(n, lo);
    Twice(n, hi);
    assert n * (2 * lo) < n * (2 * r + 1);
    MulCancel(n, 2 * lo, 2 * r + 1);
    assert n * (2 * r - 1) < n * (2 * hi + 1) by {
      MulCancel(n, 2 * hi, 2 * hi + 1);
    }
    MulCancel(n, 2 * r - 1, 2 * hi + 1);
  }

  /** Doubling inside a product. */
  lemma Twice(n: int, a: int)
    ensures n * (2 * a) == 2 * (a * n)
  {
  }

  /** Multiplication by a positive number keeps strict order, both ways. */
  lemma MulCancel(n: int, a: int, b: int)
    requires n > 0
    ensures n * a < n * b <==> a < b
  {
    assert n * b - n * a == n * (b - a);
  }

  /** `getDifficulty()`: a moon counts 1, a planet its own difficulty, and
      any other task the rounded mean over its children, or 1 without
      children. */
  ghost function Difficulty(tr: Tree, diff: map<TaskId, int>, t: TaskId): int
    requires tr.Wf() && t in tr.kind
    requires forall x :: x in tr.kind && tr.kind[x] == PLANET ==> x in diff
    decreases 4 - tr.Level(t), |tr.children[t]| + 1
  {
    match tr.kind[t]
    case MOON => 1
    case PLANET => diff[t]
    case _ =>
      var n := |tr.children[t]|;
      if n == 0 then 1 else RoundDiv(DifficultySum(tr, diff, t, n), n)
  }

  /** The difficulties of the first `n` children of `t`, added up. */
  ghost function DifficultySum(tr: Tree, diff: map<TaskId, int>, t: TaskId, n: nat): int
    requires tr.Wf() && t in tr.kind && n <= |tr.children[t]|
    requires forall x :: x in tr.kind && tr.kind[x] == PLANET ==> x in diff
    decreases 4 - tr.Level(t), n
  {
    if n == 0 then 0
    else
      ChildLevel(tr, t, n - 1);
      DifficultySum(tr, diff, t, n - 1) + Difficulty(tr, diff, tr.children[t][n - 1])
  }

  /** With every planet's difficulty between `lo` and `hi` (and 1 there
      too, for moons and empty tasks), every task's difficulty is. */
  lemma {:induction false} DifficultyBounds(tr: Tree, diff: map<TaskId, int>, t: TaskId, lo: int, hi: int)
    requires tr.Wf() && t in tr.kind
    requires forall x :: x in tr.kind && tr.kind[x] == PLANET ==> x in diff
    requires lo <= 1 <= hi && forall x :: x in diff ==> lo <= diff[x] <= hi
    ensures lo <= Difficulty(tr, diff, t) <= hi
    decreases 4 - tr.Level(t), 1
  {
    var n := |tr.children[t]|;
    if tr.kind[t] != MOON && tr.kind[t] != PLANET && n > 0 {
      SumBounds(tr, diff, t, n, lo, hi);
      RoundDivBounds(DifficultySum(tr, diff, t, n), n, lo, hi);
    }
  }

  lemma {:induction false} SumBounds(tr: Tree, diff: map<TaskId, int>, t: TaskId, n: nat, lo: int, hi: int)
    requires tr.Wf() && t in tr.kind && n <= |tr.children[t]|
    requires forall x :: x in tr.kind && tr.kind[x] == PLANET ==> x in diff
    requires lo <= 1 <= hi && forall x :: x in diff ==> lo <= diff[x] <= hi
    ensures lo * n <= DifficultySum(tr, diff, t, n) <= hi * n
    decreases 4 - tr.Level(t), 0, n
  {
    if n > 0 {
      var c := tr.children[t][n - 1];
      ChildLevel(tr, t, n - 1);
      SumBounds(tr, diff, t, n - 1, lo, hi);
      DifficultyBounds(tr, diff, c, lo, hi);
      MulStep(lo, n);
      MulStep(hi, n);
      assert DifficultySum(tr, diff, t, n) == DifficultySum(tr, diff, t, n - 1) + Difficulty(tr, diff, c);
    }
  }

  lemma MulStep(a: int, n: nat)
    requires n > 0
    ensures a * n == a * (n - 1) + a
  {
  }


  /** The counters' share of the subtree of `t`, walked as
      `updateGalaxyStats` walks it: the task, then down to the planets. */
  ghost function Census(tr: Tree, cs: set<TaskId>, t: TaskId): Stats
    requires tr.Wf() && t in tr.kind
    decreases 4 - tr.Level(t), |tr.children[t]| + 1
  {
    var own := Unit(tr.kind[t], t in cs);
    if tr.kind[t] == PLANET || tr.kind[t] == MOON then own
    else own.Plus(CensusSum(tr, cs, t, |tr.children[t]|))
  }

  /** The census of the first `n` children of `t`, added up. */
  ghost function CensusSum(tr: Tree, cs: set<TaskId>, t: TaskId, n: nat): Stats
    requires tr.Wf() && t in tr.kind && n <= |tr.children[t]|
    decreases 4 - tr.Level(t), n
  {
    if n == 0 then Zero
    else
      ChildLevel(tr, t, n - 1);
      CensusSum(tr, cs, t, n - 1).Plus(Census(tr, cs, tr.children[t][n - 1]))
  }

  /** Shifting by a task's own unit and then by its children's census is
      shifting by its census. */
  lemma CensusShift(tr: Tree, cs: set<TaskId>, t: TaskId, s0: Stats, adding: bool)
    requires tr.Wf() && t in tr.kind && tr.kind[t] != PLANET && tr.kind[t] != MOON
    ensures s0.Shift(Unit(tr.kind[t], t in cs), adding).Shift(CensusSum(tr, cs, t, |tr.children[t]|), adding)
            == s0.Shift(Census(tr, cs, t), adding)
  {
    var own, below := Unit(tr.kind[t], t in cs), CensusSum(tr, cs, t, |tr.children[t]|);
    assert s0.Shift(own, adding).Shift(below, adding) == s0.Shift(own.Plus(below), adding);
  }

  /** The census of one more child. */
  lemma CensusSumStep(tr: Tree, cs: set<TaskId>, t: TaskId, i: nat, s0: Stats, adding: bool)
    requires tr.Wf() && t in tr.kind && i < |tr.children[t]|
    ensures tr.children[t][i] in tr.kind
    ensures s0.Shift(CensusSum(tr, cs, t, i), adding).Shift(Census(tr, cs, tr.children[t][i]), adding)
            == s0.Shift(CensusSum(tr, cs, t, i + 1), adding)
  {
    ChildLevel(tr, t, i);
    var before, child := CensusSum(tr, cs, t, i), Census(tr, cs, tr.children[t][i]);
    assert s0.Shift(before, adding).Shift(child, adding) == s0.Shift(before.Plus(child), adding);
  }

  /** The counters of a set of tasks: how many of each kind it holds and
      how many of those are in `cs`. */
  ghost function CountsOf(kind: map<TaskId, TaskType>, s: set<TaskId>, cs: set<TaskId>): Stats
  {
    Stats(Done(kind, s, {}, SECTOR), Done(kind, s * cs, {}, SECTOR),
          Done(kind, s, {}, SYSTEM), Done(kind, s * cs, {}, SYSTEM),
          Done(kind, s, {}, PLANET), Done(kind, s * cs, {}, PLANET))
  }

  lemma DoneUnion(kind: map<TaskId, TaskType>, a: set<TaskId>, b: set<TaskId>, k: TaskType)
    requires a !! b
    ensures Done(kind, a + b, {}, k) == Done(kind, a, {}, k) + Done(kind, b, {}, k)
  {
    var oa, ob := Of(kind, a, {}, k), Of(kind, b, {}, k);
    assert Of(kind, a + b, {}, k) == oa + ob;
    assert oa !! ob;
  }

  /** Both counters of kind `k` of two disjoint sets add up. */
  lemma KindUnion(kind: map<TaskId, TaskType>, a: set<TaskId>, b: set<TaskId>, cs: set<TaskId>, k: TaskType)
    requires a !! b
    ensures Done(kind, a + b, {}, k) == Done(kind, a, {}, k) + Done(kind, b, {}, k)
    ensures Done(kind, (a + b) * cs, {}, k) == Done(kind, a * cs, {}, k) + Done(kind, b * cs, {}, k)
  {
    var ac, bc := a * cs, b * cs;
    DoneUnion(kind, a, b, k);
    assert (a + b) * cs == ac + bc;
    DoneUnion(kind, ac, bc, k);
  }

  /** Counting two disjoint sets is counting each. */
  lemma CountsUnion(kind: map<TaskId, TaskType>, a: set<TaskId>, b: set<TaskId>, cs: set<TaskId>)
    requires a !! b
    ensures CountsOf(kind, a + b, cs) == CountsOf(kind, a, cs).Plus(CountsOf(kind, b, cs))
  {
    var x, y, z := CountsOf(kind, a + b, cs), CountsOf(kind, a, cs), CountsOf(kind, b, cs);
    KindUnion(kind, a, b, cs, SECTOR);
    KindUnion(kind, a, b, cs, SYSTEM);
    KindUnion(kind, a, b, cs, PLANET);
    PlusFields(x, y, z);
  }

  lemma PlusFields(x: Stats, y: Stats, z: Stats)
    requires x.sectors == y.sectors + z.sectors && x.sectorsDone == y.sectorsDone + z.sectorsDone
    requires x.systems == y.systems + z.systems && x.systemsDone == y.systemsDone + z.systemsDone
    requires x.planets == y.planets + z.planets && x.planetsDone == y.planetsDone + z.planetsDone
    ensures x == y.Plus(z)
  {
  }

  /** The same, for a set already known to be the union. */
  lemma CountsSplit(kind: map<TaskId, TaskType>, s: set<TaskId>, a: set<TaskId>, b: set<TaskId>, cs: set<TaskId>)
    requires s == a + b && a !! b
    ensures CountsOf(kind, s, cs) == CountsOf(kind, a, cs).Plus(CountsOf(kind, b, cs))
  {
    CountsUnion(kind, a, b, cs);
  }

  /** One task counts as its unit. */
  lemma CountsOne(kind: map<TaskId, TaskType>, t: TaskId, cs: set<TaskId>)
    requires t in kind
    ensures CountsOf(kind, {t}, cs) == Unit(kind[t], t in cs)
  {
    forall k | true
      ensures Of(kind, {t}, {}, k) == if kind[t] == k then {t} else {}
      ensures Of(kind, {t} * cs, {}, k) == if kind[t] == k && t in cs then {t} else {}
    {
    }
  }

  /** A set of moons counts nothing. */
  lemma CountsMoons(kind: map<TaskId, TaskType>, s: set<TaskId>, cs: set<TaskId>)
    requires forall x :: x in s ==> x in kind && kind[x] == MOON
    ensures CountsOf(kind, s, cs) == Zero
  {
    forall k | k != MOON
      ensures Of(kind, s, {}, k) == {} && Of(kind, s * cs, {}, k) == {}
    {
    }
  }

  /** The census of a subtree counts exactly the sectors, systems and
      planets of the subtree, and the checked ones among them. */
  lemma {:induction false} CensusCounts(tr: Tree, cs: set<TaskId>, t: TaskId)
    requires tr.Wf() && t in tr.kind
    ensures Census(tr, cs, t) == CountsOf(tr.kind, Sub(tr, t), cs)
    decreases 4 - tr.Level(t), 1
  {
    var n := |tr.children[t]|;
    var below := Below(tr, t, n);
    var own := Unit(tr.kind[t], t in cs);
    AllBelow(tr, t);
    CountsUnion(tr.kind, {t}, below, cs);
    CountsOne(tr.kind, t, cs);
    if tr.kind[t] == PLANET || tr.kind[t] == MOON {
      FlattenBelow(tr, t);
      forall x | x in below
        ensures x in tr.kind && tr.kind[x] == MOON
      {
        assert tr.Level(x) > tr.Level(t) >= 3;
      }
      CountsMoons(tr.kind, below, cs);
      PlusZero(own);
    } else {
      CensusSumCounts(tr, cs, t, n);
      assert Census(tr, cs, t) == own.Plus(CensusSum(tr, cs, t, n));
    }
  }

  lemma {:induction false} CensusSumCounts(tr: Tree, cs: set<TaskId>, t: TaskId, n: nat)
    requires tr.Wf() && t in tr.kind && n <= |tr.children[t]|
    ensures CensusSum(tr, cs, t, n) == CountsOf(tr.kind, Below(tr, t, n), cs)
    decreases 4 - tr.Level(t), 0, n
  {
    if n == 0 {
      CensusSumNone(tr, cs, t);
    } else {
      ChildLevel(tr, t, n - 1);
      CensusSumCounts(tr, cs, t, n - 1);
      CensusCounts(tr, cs, tr.children[t][n - 1]);
      CensusSumJoin(tr, cs, t, n - 1);
    }
  }

  /** No children count nothing. */
  lemma CensusSumNone(tr: Tree, cs: set<TaskId>, t: TaskId)
    requires tr.Wf() && t in tr.kind
    ensures CensusSum(tr, cs, t, 0) == CountsOf(tr.kind, Below(tr, t, 0), cs)
  {
    assert Below(tr, t, 0) == {};
    CountsMoons(tr.kind, {}, cs);
  }

  /** The step of `CensusSumCounts`: one more child adds its subtree's counts. */
  lemma CensusSumJoin(tr: Tree, cs: set<TaskId>, t: TaskId, n: nat)
    requires tr.Wf() && t in tr.kind && n < |tr.children[t]|
    requires tr.children[t][n] in tr.kind
    requires CensusSum(tr, cs, t, n) == CountsOf(tr.kind, Below(tr, t, n), cs)
    requires Census(tr, cs, tr.children[t][n]) == CountsOf(tr.kind, Sub(tr, tr.children[t][n]), cs)
    ensures CensusSum(tr, cs, t, n + 1) == CountsOf(tr.kind, Below(tr, t, n + 1), cs)
  {
    var c := tr.children[t][n];
    assert CensusSum(tr, cs, t, n + 1) == CensusSum(tr, cs, t, n).Plus(Census(tr, cs, c));
    BelowStep(tr, t, n);
    CountsSplit(tr.kind, Below(tr, t, n + 1), Below(tr, t, n), Sub(tr, c), cs);
  }

  /** The subtree of `t` in the order `backupChecked` visits it: each
      child's subtree, then `t` itself. */
  ghost function PostOrder(tr: Tree, t: TaskId): seq<TaskId>
    requires tr.Wf() && t in tr.kind
    decreases 4 - tr.Level(t), |tr.children[t]| + 1
  {
    PostPrefix(tr, t, |tr.children[t]|) + [t]
  }

  ghost function PostPrefix(tr: Tree, t: TaskId, n: nat): seq<TaskId>
    requires tr.Wf() && t in tr.kind && n <= |tr.children[t]|
    decreases 4 - tr.Level(t), n
  {
    if n == 0 then []
    else
      ChildLevel(tr, t, n - 1);
      PostPrefix(tr, t, n - 1) + PostOrder(tr, tr.children[t][n - 1])
  }

  /** The post-order visits every task of the subtree, `t` last, and as
      many times as the subtree has tasks listed. */
  lemma {:induction false} PostOrderCovers(tr: Tree, t: TaskId)
    requires tr.Wf() && t in tr.kind
    ensures |PostOrder(tr, t)| == |Flatten(tr, t)| + 1
    ensures (set x | x in PostOrder(tr, t)) == Sub(tr, t)
    ensures PostOrder(tr, t)[|PostOrder(tr, t)| - 1] == t
    decreases 4 - tr.Level(t), 1
  {
    PostPrefixCovers(tr, t, |tr.children[t]|);
  }

  lemma {:induction false} PostPrefixCovers(tr: Tree, t: TaskId, n: nat)
    requires tr.Wf() && t in tr.kind && n <= |tr.children[t]|
    ensures |PostPrefix(tr, t, n)| == |FlatPrefix(tr, t, n)|
    ensures (set x | x in PostPrefix(tr, t, n)) == Below(tr, t, n)
    decreases 4 - tr.Level(t), 0, n
  {
    if n > 0 {
      var c := tr.children[t][n - 1];
      ChildLevel(tr, t, n - 1);
      PostPrefixCovers(tr, t, n - 1);
      PostOrderCovers(tr, c);
      BelowStep(tr, t, n - 1);
      assert FlatPrefix(tr, t, n) == FlatPrefix(tr, t, n - 1) + [c] + Flatten(tr, c);
    }
  }

  /** The value a `CHECKED` backup action records for task `x`: the task's
      own flag for a rollback (`w` is None), the requested flag for a
      rollforward. */
  function CheckedValue(x: TaskId, cs: set<TaskId>, w: Option<bool>): bool
  {
    if w.Some? then w.value else x in cs
  }

  /** One `CHECKED` action per task of `xs`, in order. */
  function CheckedActions(xs: seq<TaskId>, cs: set<TaskId>, w: Option<bool>): (r: seq<Action>)
    ensures |r| == |xs|
    ensures forall i :: 0 <= i < |xs| ==> r[i] == Action(xs[i], Flag(CheckedValue(xs[i], cs, w)), CHECKED)
  {
    seq(|xs|, i requires 0 <= i < |xs| => Action(xs[i], Flag(CheckedValue(xs[i], cs, w)), CHECKED))
  }

  lemma CheckedActionsAppend(a: seq<TaskId>, b: seq<TaskId>, cs: set<TaskId>, w: Option<bool>)
    ensures CheckedActions(a + b, cs, w) == CheckedActions(a, cs, w) + CheckedActions(b, cs, w)
  {
  }

  /** The systems of the galaxy, sector by sector. */
  ghost function Systems(tr: Tree): seq<TaskId>
    requires tr.Wf()
  {
    SystemsPrefix(tr, |tr.children[tr.root]|)
  }

  ghost function SystemsPrefix(tr: Tree, n: nat): seq<TaskId>
    requires tr.Wf() && n <= |tr.children[tr.root]|
  {
    if n == 0 then []
    else
      ChildLevel(tr, tr.root, n - 1);
      SystemsPrefix(tr, n - 1) + tr.children[tr.children[tr.root][n - 1]]
  }

  /** One `COORDINATES` action per system of `xs`, recording its position. */
  function CoordsActions(xs: seq<TaskId>, coords: map<TaskId, Coord>): (r: seq<Action>)
    requires forall x :: x in xs ==> x in coords
    ensures |r| == |xs|
    ensures forall i :: 0 <= i < |xs| ==> r[i] == Action(xs[i], Point(coords[xs[i]]), COORDINATES)
  {
    seq(|xs|, i requires 0 <= i < |xs| => Action(xs[i], Point(coords[xs[i]]), COORDINATES))
  }

  /** The systems listed sector by sector are exactly the systems of the
      galaxy's tree, each once. */
  lemma SystemsAll(tr: Tree)
    requires tr.Wf()
    ensures Distinct(Systems(tr))
    ensures forall x :: x in Systems(tr) <==> x in Sub(tr, tr.root) && x in tr.kind && tr.kind[x] == SYSTEM
  {
    var n := |tr.children[tr.root]|;
    SystemsPrefixAll(tr, n);
    AllBelow(tr, tr.root);
    forall x | x in Sub(tr, tr.root) && x in tr.kind && tr.kind[x] == SYSTEM
      ensures x in Systems(tr)
    {
      var k := Member(tr, tr.root, n, x);
      var s := tr.children[tr.root][k];
      ChildLevel(tr, tr.root, k);
      if x != s {
        var j := Member(tr, s, |tr.children[s]|, x);
        var y := tr.children[s][j];
        ChildLevel(tr, s, j);
        if x != y {
          FlattenBelow(tr, y);
        }
        SystemsHas(tr, n, k, j);
      }
    }
  }

  /** The systems of the first sectors come first. */
  lemma {:induction false} SystemsPrefixGrows(tr: Tree, i: nat, n: nat)
    requires tr.Wf() && i <= n <= |tr.children[tr.root]|
    ensures SystemsPrefix(tr, i) <= SystemsPrefix(tr, n)
    decreases n
  {
    if i < n {
      SystemsPrefixGrows(tr, i, n - 1);
    }
  }

  lemma {:induction false} SystemsHas(tr: Tree, n: nat, k: nat, j: nat)
    requires tr.Wf() && n <= |tr.children[tr.root]| && k < n
    requires j < |tr.children[tr.children[tr.root][k]]|
    ensures tr.children[tr.children[tr.root][k]][j] in SystemsPrefix(tr, n)
    decreases n
  {
    ChildLevel(tr, tr.root, n - 1);
    if k < n - 1 {
      SystemsHas(tr, n - 1, k, j);
    }
  }

  lemma {:induction false} SystemsPrefixAll(tr: Tree, n: nat)
    requires tr.Wf() && n <= |tr.children[tr.root]|
    ensures Distinct(SystemsPrefix(tr, n))
    ensures forall x :: x in SystemsPrefix(tr, n) ==>
      x in Sub(tr, tr.root) && x in tr.kind && tr.kind[x] == SYSTEM && x in tr.parent && tr.parent[x] in tr.children[tr.root][..n]
    decreases n
  {
    if n > 0 {
      var s := tr.children[tr.root][n - 1];
      var p := SystemsPrefix(tr, n - 1);
      var q := tr.children[s];
      ChildLevel(tr, tr.root, n - 1);
      SystemsPrefixAll(tr, n - 1);
      forall x | x in q
        ensures x in Sub(tr, tr.root) && x in tr.kind && tr.kind[x] == SYSTEM && x in tr.parent && tr.parent[x] == s
      {
        var j :| 0 <= j < |q| && q[j] == x;
        ChildLevel(tr, s, j);
        ChildSub(tr, tr.root, n - 1);
        ChildSub(tr, s, j);
      }
      forall x | x in p
        ensures x !in q
      {
        var i :| 0 <= i < n - 1 && tr.children[tr.root][..n - 1][i] == tr.parent[x];
        DistinctAt(tr.children[tr.root], i, n - 1);
      }
      DistinctConcat(p, q);
      assert tr.children[tr.root][..n] == tr.children[tr.root][..n - 1] + [s];
    }
  }
}
