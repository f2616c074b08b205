/** Chaining fragment maps into rings: the loop shared by buildShapes and
    buildBorder. `Run` is its specification, one `Step` per loop iteration;
    `TraceRings` is the loop itself over a sector's fragment map. */
module Rings {
  import opened Common
  import opened Fragments
  import opened ShapeModel

  function Last<T>(s: seq<T>): T
    requires |s| > 0
  {
    s[|s| - 1]
  }

  predicate EndsWith(ring: seq<Pt>, p: Pt)
  {
    |ring| > 0 && Last(ring) == p
  }

  function AppendToLast(rings: seq<seq<Pt>>, p: Pt): (r: seq<seq<Pt>>)
    requires |rings| > 0
    ensures |r| == |rings| && Last(r) == Last(rings) + [p]
    ensures forall i :: 0 <= i < |rings| - 1 ==> r[i] == rings[i]
    ensures r[..|r| - 1] == rings[..|rings| - 1]
  {
    rings[..|rings| - 1] + [rings[|rings| - 1] + [p]]
  }

  /** The loop's variables: the map being consumed, the start of the ring
      being traced (none between rings), the current point, and the rings
      built so far. */
  datatype TraceState = TraceState(em: EdgeMap, start: Option<Pt>, cur: Pt, rings: seq<seq<Pt>>)
  {
    ghost predicate Wf()
    {
      && em.Wf()
      && (start.Some? ==> |rings| > 0 && EndsWith(Last(rings), cur))
    }

    /** Twice the number of links left, plus one while a ring is open. */
    function Measure(): nat
    {
      2 * |em.links| + (if start.Some? then 1 else 0)
    }
  }

  function Initial(em: EdgeMap): TraceState
  {
    TraceState(em, None, Pt(0, 0.0, 0.0), [])
  }

  /** First half of an iteration: when no ring is open, open one at the
      first remaining key. */
  function Open(s: TraceState): (t: TraceState)
    requires s.Wf() && |s.em.links| > 0
    ensures t.Wf() && t.start.Some? && t.em == s.em
    ensures s.start.None? ==> t.cur in t.em.links && t.Measure() == s.Measure() + 1
    ensures s.start.Some? ==> t == s
    ensures |s.rings| <= |t.rings|
    ensures forall i :: 0 <= i < |s.rings| ==> s.rings[i] == t.rings[i]
  {
    if s.start.None? then
      SizeIsKeyCount(s.em);
      var k := s.em.keys[0];
      TraceState(s.em, Some(k), k, s.rings + [[k]])
    else s
  }

  /** Second half: delete the current link, then close the ring (no
      successor, or the successor is the start) or extend it with the
      successor. */
  function Advance(s: TraceState): (t: TraceState)
    requires s.Wf() && s.start.Some?
    ensures t.Wf()
    ensures s.cur in s.em.links ==> t.Measure() + 2 <= s.Measure()
    ensures s.cur !in s.em.links ==> t.Measure() + 1 == s.Measure()
    ensures t.em.links == s.em.links - {s.cur}
    ensures |s.rings| == |t.rings|
    ensures forall i :: 0 <= i < |s.rings| ==> s.rings[i] <= t.rings[i]
    ensures s.cur in Last(t.rings)
  {
    var next := s.em.Get(s.cur);
    assert s.cur in Last(s.rings);
    if next.None? || next.value == s.start.value then
      TraceState(s.em.Delete(s.cur), None, s.cur, s.rings)
    else
      var rings := AppendToLast(s.rings, next.value);
      assert Last(s.rings) <= Last(rings);
      TraceState(s.em.Delete(s.cur), s.start, next.value, rings)
  }

  /** One iteration of the loop. */
  function Step(s: TraceState): (t: TraceState)
    requires s.Wf() && |s.em.links| > 0
    ensures t.Wf()
    ensures t.Measure() < s.Measure()
    ensures |s.rings| <= |t.rings| && |t.rings| > 0
    ensures forall i :: 0 <= i < |s.rings| ==> s.rings[i] <= t.rings[i]
    ensures forall k :: k in s.em.links && k !in t.em.links ==> k in Last(t.rings)
    ensures forall i :: |s.rings| <= i < |t.rings| ==> |t.rings[i]| > 0
  {
    var o := Open(s);
    var t := Advance(o);
    assert t.em.links == s.em.links - {o.cur};
    t
  }

  function Run(s: TraceState): seq<seq<Pt>>
    requires s.Wf()
    decreases s.Measure()
  {
    if |s.em.links| == 0 then s.rings else Run(Step(s))
  }

  /** The rings the tracer builds from a fragment map, before overlap
      resolution. */
  function RingsOf(em: EdgeMap): seq<seq<Pt>>
    requires em.Wf()
  {
    Run(Initial(em))
  }

  ghost predicate InSomeRing(rings: seq<seq<Pt>>, p: Pt)
  {
    exists i :: 0 <= i < |rings| && p in rings[i]
  }

  /** Points already placed in a ring stay there. */
  lemma {:induction false} RunKeepsPoints(s: TraceState, p: Pt)
    requires s.Wf() && InSomeRing(s.rings, p)
    ensures InSomeRing(Run(s), p)
    decreases s.Measure()
  {
    if |s.em.links| > 0 {
      var t := Step(s);
      var i :| 0 <= i < |s.rings| && p in s.rings[i];
      assert s.rings[i] <= t.rings[i];
      assert p in t.rings[i];
      RunKeepsPoints(t, p);
    }
  }

  /** Rings are never empty: each starts with its first point. */
  lemma {:induction false} RunRingsNonEmpty(s: TraceState)
    requires s.Wf() && forall i :: 0 <= i < |s.rings| ==> |s.rings[i]| > 0
    ensures forall i :: 0 <= i < |Run(s)| ==> |Run(s)[i]| > 0
    decreases s.Measure()
  {
    if |s.em.links| > 0 {
      var t := Step(s);
      assert forall i :: 0 <= i < |s.rings| ==> s.rings[i] <= t.rings[i];
      RunRingsNonEmpty(t);
    }
  }

  lemma RingsNonEmpty(em: EdgeMap)
    requires em.Wf()
    ensures forall i :: 0 <= i < |RingsOf(em)| ==> |RingsOf(em)[i]| > 0
  {
    RunRingsNonEmpty(Initial(em));
  }

  /** Every key of the map ends up in some ring. */
  lemma {:induction false} RunCoversKeys(s: TraceState, k: Pt)
    requires s.Wf() && k in s.em.links
    ensures InSomeRing(Run(s), k)
    decreases s.Measure()
  {
    var t := Step(s);
    if k in t.em.links {
      RunCoversKeys(t, k);
    } else {
      assert k in t.rings[|t.rings| - 1];
      RunKeepsPoints(t, k);
    }
  }

  lemma EveryKeyInSomeRing(em: EdgeMap, k: Pt)
    requires em.Wf() && k in em.links
    ensures InSomeRing(RingsOf(em), k)
  {
    RunCoversKeys(Initial(em), k);
  }

  /** `em` is one closed cycle `c[0] -> c[1] -> ... -> c[n-1] -> c[0]`
      whose first key is `c[0]`. */
  ghost predicate IsCycle(em: EdgeMap, c: seq<Pt>)
  {
    && em.Wf() && |c| > 0 && Distinct(c)
    && |em.keys| > 0 && em.keys[0] == c[0]
    && em.links.Keys == (set i | 0 <= i < |c| :: c[i])
    && LinksFrom(em.links, c, 0)
    && em.links[c[|c| - 1]] == c[0]
  }

  /** `em` is one open chain `c[0] -> ... -> c[n]` whose first key is
      `c[0]` and whose end `c[n]` is not a key. */
  ghost predicate IsChain(em: EdgeMap, c: seq<Pt>)
  {
    && em.Wf() && |c| > 1 && Distinct(c)
    && |em.keys| > 0 && em.keys[0] == c[0]
    && em.links.Keys == (set i | 0 <= i < |c| - 1 :: c[i])
    && LinksFrom(em.links, c, 0)
  }

  /** `c[i]` links to `c[i + 1]`. */
  ghost predicate Linked(links: map<Pt, Pt>, c: seq<Pt>, i: int)
    requires 0 <= i < |c| - 1
  {
    c[i] in links && links[c[i]] == c[i + 1]
  }

  /** Every point of `c` from `c[j]` on links to the next one. */
  ghost predicate LinksFrom(links: map<Pt, Pt>, c: seq<Pt>, j: nat)
  {
    forall i :: j <= i < |c| - 1 ==> Linked(links, c, i)
  }

  /** Deleting `c[lo]` from the keys `c[lo..hi]` leaves `c[lo+1..hi]`. */
  lemma DropFirstKey(c: seq<Pt>, lo: nat, hi: nat)
    requires Distinct(c) && lo < hi <= |c|
    ensures (set i | lo <= i < hi :: c[i]) - {c[lo]} == (set i | lo + 1 <= i < hi :: c[i])
  {
    forall i | lo + 1 <= i < hi ensures c[i] != c[lo] {
      DistinctAt(c, i, lo);
    }
  }

  lemma NonEmptyLinks(m: map<Pt, Pt>, k: Pt)
    requires k in m
    ensures |m| > 0
  {
    assert k in m.Keys;
  }

  /** The loop inside the cycle `c`, having reached `c[j]` with the ring so
      far being `c[..j+1]` and the links from `c[j]` on still in the map. */
  ghost predicate CycleAt(c: seq<Pt>, s: TraceState, j: nat)
  {
    && |c| > 0 && Distinct(c) && j < |c|
    && s.Wf() && s.start == Some(c[0]) && s.cur == c[j]
    && |s.rings| > 0 && Last(s.rings) == c[..j + 1]
    && s.em.links.Keys == (set i | j <= i < |c| :: c[i])
    && LinksFrom(s.em.links, c, j)
    && s.em.links[c[|c| - 1]] == c[0]
  }

  lemma CycleStep(c: seq<Pt>, s: TraceState, j: nat)
    requires CycleAt(c, s, j) && j < |c| - 1
    ensures CycleAt(c, Advance(s), j + 1)
    ensures Advance(s).rings[..|s.rings| - 1] == s.rings[..|s.rings| - 1]
  {
    var t := Advance(s);
    DistinctAt(c, j + 1, 0);
    assert Linked(s.em.links, c, j);
    assert t.rings == AppendToLast(s.rings, c[j + 1]);
    assert Last(s.rings) == c[..j + 1];
    PrefixGrows(c, j + 1);
    DropFirstKey(c, j, |c|);
    LinksAfterDrop(s.em.links, c, j);
  }

  /** Deleting the key `c[j]` keeps the links from `c[j + 1]` on. */
  lemma LinksAfterDrop(links: map<Pt, Pt>, c: seq<Pt>, j: nat)
    requires Distinct(c) && j < |c| && LinksFrom(links, c, j)
    ensures LinksFrom(links - {c[j]}, c, j + 1)
  {
    forall i | j + 1 <= i < |c| - 1 ensures Linked(links - {c[j]}, c, i) {
      assert Linked(links, c, i);
      DistinctAt(c, i, j);
    }
  }

  lemma PrefixGrows<T>(c: seq<T>, n: nat)
    requires n < |c|
    ensures c[..n] + [c[n]] == c[..n + 1]
  {
  }

  /** At the last point the successor is the start: the ring closes and
      the map is empty. */
  lemma CycleClose(c: seq<Pt>, s: TraceState, j: nat)
    requires CycleAt(c, s, j) && j == |c| - 1
    ensures Run(s) == s.rings[..|s.rings| - 1] + [c]
  {
    assert c[j] in s.em.links;
    NonEmptyLinks(s.em.links, c[j]);
    assert Step(s) == Advance(s);
    DropFirstKey(c, j, |c|);
    assert Advance(s).em.links.Keys == {};
    assert c[..j + 1] == c;
  }

  lemma {:induction false} CycleTail(c: seq<Pt>, s: TraceState, j: nat)
    requires CycleAt(c, s, j)
    ensures Run(s) == s.rings[..|s.rings| - 1] + [c]
    decreases |c| - j
  {
    if j == |c| - 1 {
      CycleClose(c, s, j);
    } else {
      assert c[j] in s.em.links;
      NonEmptyLinks(s.em.links, c[j]);
      assert Step(s) == Advance(s);
      CycleStep(c, s, j);
      CycleTail(c, Advance(s), j + 1);
    }
  }

  lemma OpenedAtStart(em: EdgeMap, k: Pt)
    requires em.Wf() && |em.links| > 0 && |em.keys| > 0 && em.keys[0] == k
    ensures Open(Initial(em)) == TraceState(em, Some(k), k, [[k]])
  {
  }

  /** A map forming one closed cycle yields that cycle as its only ring,
      in link order, from the first key, with the start not repeated. */
  lemma CycleGivesOneRing(em: EdgeMap, c: seq<Pt>)
    requires IsCycle(em, c)
    ensures RingsOf(em) == [c]
  {
    assert c[0] in em.links;
    NonEmptyLinks(em.links, c[0]);
    var o := Open(Initial(em));
    OpenedAtStart(em, c[0]);
    assert c[..1] == [c[0]];
    assert CycleAt(c, o, 0);
    CycleTail(c, o, 0);
    assert Step(o) == Advance(o) == Step(Initial(em));
  }

  /** The loop along the chain `c`, having reached `c[j]`. */
  ghost predicate ChainAt(c: seq<Pt>, s: TraceState, j: nat)
  {
    && |c| > 1 && Distinct(c) && j < |c|
    && s.Wf() && s.start == Some(c[0]) && s.cur == c[j]
    && |s.rings| > 0 && Last(s.rings) == c[..j + 1]
    && s.em.links.Keys == (set i | j <= i < |c| - 1 :: c[i])
    && LinksFrom(s.em.links, c, j)
  }

  lemma ChainStep(c: seq<Pt>, s: TraceState, j: nat)
    requires ChainAt(c, s, j) && j < |c| - 1
    ensures ChainAt(c, Advance(s), j + 1)
    ensures Advance(s).rings[..|s.rings| - 1] == s.rings[..|s.rings| - 1]
  {
    var t := Advance(s);
    DistinctAt(c, j + 1, 0);
    assert Linked(s.em.links, c, j);
    assert t.rings == AppendToLast(s.rings, c[j + 1]);
    assert Last(s.rings) == c[..j + 1];
    PrefixGrows(c, j + 1);
    DropFirstKey(c, j, |c| - 1);
    LinksAfterDrop(s.em.links, c, j);
  }

  /** At the end of the chain no link is left and the loop stops. */
  lemma ChainEnd(c: seq<Pt>, s: TraceState, j: nat)
    requires ChainAt(c, s, j) && j == |c| - 1
    ensures Run(s) == s.rings[..|s.rings| - 1] + [c]
  {
    assert s.em.links.Keys == {};
    assert |s.em.links| == 0;
    assert c[..j + 1] == c;
  }

  lemma {:induction false} ChainTail(c: seq<Pt>, s: TraceState, j: nat)
    requires ChainAt(c, s, j)
    ensures Run(s) == s.rings[..|s.rings| - 1] + [c]
    decreases |c| - j
  {
    if j == |c| - 1 {
      ChainEnd(c, s, j);
    } else {
      assert c[j] in s.em.links;
      NonEmptyLinks(s.em.links, c[j]);
      assert Step(s) == Advance(s);
      ChainStep(c, s, j);
      ChainTail(c, Advance(s), j + 1);
    }
  }

  /** A map forming one open chain of n links yields one ring of its
      n + 1 points: the missing successor ends the ring without error. */
  lemma ChainGivesOneRing(em: EdgeMap, c: seq<Pt>)
    requires IsChain(em, c)
    ensures RingsOf(em) == [c]
  {
    assert c[0] in em.links;
    NonEmptyLinks(em.links, c[0]);
    var o := Open(Initial(em));
    OpenedAtStart(em, c[0]);
    assert c[..1] == [c[0]];
    assert ChainAt(c, o, 0);
    ChainTail(c, o, 0);
    assert Step(o) == Advance(o) == Step(Initial(em));
  }

  /** The second half of an iteration, case by case. */
  lemma AdvanceCases(s: TraceState)
    requires s.Wf() && s.start.Some?
    ensures s.cur !in s.em.links || s.em.links[s.cur] == s.start.value ==>
              Advance(s) == TraceState(s.em.Delete(s.cur), None, s.cur, s.rings)
    ensures s.cur in s.em.links && s.em.links[s.cur] != s.start.value ==>
              Advance(s) == TraceState(s.em.Delete(s.cur), s.start, s.em.links[s.cur],
                                       AppendToLast(s.rings, s.em.links[s.cur]))
  {
  }

  lemma RunUnfold(s: TraceState)
    requires s.Wf() && |s.em.links| > 0
    ensures Run(s) == Run(Advance(Open(s)))
  {
  }

  /** The chaining loop of buildShapes/buildBorder on the fragment map:
      consumes the map and returns the rings in the order they were
      started. */
  method ChainRings(m: FragmentMap) returns (rings: seq<seq<Pt>>)
    modifies m
    ensures m.contents.links == map[] && m.contents.keys == []
    ensures rings == RingsOf(old(m.contents))
  {
    rings := [];
    if m.Size() == 0 {
      SizeIsKeyCount(m.contents);
      assert m.contents.links.Keys == {};
      return;
    }
    var start: Option<Pt> := None;
    var cur := Pt(0, 0.0, 0.0);
    assert Initial(m.contents) == TraceState(m.contents, start, cur, rings);
    while m.Size() > 0
      invariant TraceState(m.contents, start, cur, rings).Wf()
      invariant Run(TraceState(m.contents, start, cur, rings)) == RingsOf(old(m.contents))
      decreases TraceState(m.contents, start, cur, rings).Measure()
    {
      ghost var s0 := TraceState(m.contents, start, cur, rings);
      SizeIsKeyCount(m.contents);
      RunUnfold(s0);
      if start.None? {
        var k := m.contents.keys[0];
        start, cur := Some(k), k;
        rings := rings + [[k]];
      }
      ghost var s1 := TraceState(m.contents, start, cur, rings);
      assert s1 == Open(s0);
      AdvanceCases(s1);
      var next := m.contents.Get(cur);
      if next.None? || next.value == start.value {
        m.Delete(cur);
        start := None;
      } else {
        m.Delete(cur);
        rings := AppendToLast(rings, next.value);
        cur := next.value;
      }
      assert TraceState(m.contents, start, cur, rings) == Advance(s1);
    }
    SizeIsKeyCount(m.contents);
    assert m.contents.links.Keys == {};
  }

  /** A shape as the tracer leaves it: nothing but its points set. */
  ghost predicate Blank(sh: Shape, kind: ShapeKind)
    reads sh
  {
    sh.kind == kind && sh.inverse == [] && !sh.isContained && sh.min.None? && sh.max.None?
  }

  /** One new shape of the given kind per ring, holding that ring. */
  method NewShapes(rings: seq<seq<Pt>>, kind: ShapeKind) returns (shapes: seq<Shape>)
    ensures |shapes| == |rings|
    ensures forall i :: 0 <= i < |shapes| ==>
              fresh(shapes[i]) && shapes[i].points == rings[i] && Blank(shapes[i], kind)
    ensures forall i, j :: 0 <= i < j < |shapes| ==> shapes[i] != shapes[j]
  {
    shapes := [];
    for n := 0 to |rings|
      invariant |shapes| == n
      invariant forall i :: 0 <= i < n ==>
                  fresh(shapes[i]) && shapes[i].points == rings[i] && Blank(shapes[i], kind)
      invariant forall i, j :: 0 <= i < j < n ==> shapes[i] != shapes[j]
    {
      var sh := new Shape(kind, rings[n]);
      shapes := shapes + [sh];
    }
  }

  /** buildShapes/buildBorder up to the overlap check: the map is consumed
      and each ring becomes a new shape, in the order the rings were
      started. */
  method TraceRings(m: FragmentMap, kind: ShapeKind) returns (shapes: seq<Shape>)
    modifies m
    ensures m.contents.links == map[] && m.contents.keys == []
    ensures |shapes| == |RingsOf(old(m.contents))|
    ensures forall i :: 0 <= i < |shapes| ==>
              fresh(shapes[i]) && shapes[i].points == RingsOf(old(m.contents))[i] && Blank(shapes[i], kind)
    ensures forall i, j :: 0 <= i < j < |shapes| ==> shapes[i] != shapes[j]
  {
    var rings := ChainRings(m);
    shapes := NewShapes(rings, kind);
  }
}
