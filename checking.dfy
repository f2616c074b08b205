/** The checked flags of a task tree and how `setChecked` changes them.
    `setChecked(v, propagate)` is a no-op when the flag already equals `v`;
    otherwise it sets the flag, passes `v` down to every child (with
    propagation) when `propagate` or `v` holds and the task is not a moon,
    and, when unchecking anything but the galaxy, unchecks the parent
    without propagation. */
module Checking {
  import opened Common
  import opened TaskTree

  /** The recursion measure of `setChecked`: calls going down grow the
      level, and the upward calls (unchecking without propagation) shrink
      it and never go down again. */
  function Measure(tr: Tree, t: TaskId, v: bool, p: bool): nat
    requires t in tr.kind
  {
    if !v && !p then tr.Level(t) else 9 - tr.Level(t)
  }

  /** The checked set after `t.setChecked(v, p)` from checked set `cs`. */
  ghost function After(tr: Tree, t: TaskId, v: bool, p: bool, cs: set<TaskId>): set<TaskId>
    requires tr.Wf() && t in tr.kind
    decreases Measure(tr, t, v, p), |tr.children[t]| + 1
  {
    if (t in cs) == v then cs
    else
      var cs1 := if v then cs + {t} else cs - {t};
      var cs2 := if tr.kind[t] != MOON && (p || v) then AfterChildren(tr, t, |tr.children[t]|, v, cs1) else cs1;
      if tr.kind[t] != GALAXY && !v then
        assert tr.ParentOk(t);
        After(tr, tr.parent[t], false, false, cs2)
      else cs2
  }

  /** The checked set after the first `n` children of `t` are set to `v`
      with propagation, in order. */
  ghost function AfterChildren(tr: Tree, t: TaskId, n: nat, v: bool, cs: set<TaskId>): set<TaskId>
    requires tr.Wf() && t in tr.kind && n <= |tr.children[t]|
    decreases 9 - tr.Level(t), n
  {
    if n == 0 then cs
    else
      ChildLevel(tr, t, n - 1);
      After(tr, tr.children[t][n - 1], v, true, AfterChildren(tr, t, n - 1, v, cs))
  }

  /** A checked task has all its children checked. */
  ghost predicate Consistent(tr: Tree, cs: set<TaskId>)
  {
    forall t, i, c :: tr.ChildAt(t, i, c) && t in cs ==> c in cs
  }

  /** Consistent, for the tasks of `s`. */
  ghost predicate ConsistentIn(tr: Tree, s: set<TaskId>, cs: set<TaskId>)
  {
    forall t, i, c :: tr.ChildAt(t, i, c) && t in s && t in cs ==> c in cs
  }

  /** The ancestors of `x`, from its parent up to the galaxy. */
  ghost function Anc(tr: Tree, x: TaskId): set<TaskId>
    requires tr.Wf() && x in tr.kind
    decreases tr.Level(x)
  {
    if tr.kind[x] == GALAXY then {}
    else
      assert x != tr.root && tr.ParentOk(x);
      {tr.parent[x]} + Anc(tr, tr.parent[x])
  }

  /** `x` hangs from the galaxy: every task on the way up is listed among
      its parent's children. */
  ghost predicate Attached(tr: Tree, x: TaskId)
    requires tr.Wf() && x in tr.kind
    decreases tr.Level(x)
  {
    tr.kind[x] == GALAXY
    || (tr.ParentOk(x) && x in tr.children[tr.parent[x]] && Attached(tr, tr.parent[x]))
  }

  /** Along the way up from `x`, a checked parent has a checked child. */
  ghost predicate ChainConsistent(tr: Tree, x: TaskId, cs: set<TaskId>)
    requires tr.Wf() && x in tr.kind
    decreases tr.Level(x)
  {
    tr.kind[x] == GALAXY
    || (tr.ParentOk(x) && (tr.parent[x] in cs ==> x in cs) && ChainConsistent(tr, tr.parent[x], cs))
  }

  /** Ancestors sit above `x`. */
  lemma {:induction false} AncAbove(tr: Tree, x: TaskId)
    requires tr.Wf() && x in tr.kind
    ensures forall a :: a in Anc(tr, x) ==> a in tr.kind && tr.Level(a) < tr.Level(x)
    decreases tr.Level(x)
  {
    if tr.kind[x] != GALAXY {
      assert tr.ParentOk(x);
      AncAbove(tr, tr.parent[x]);
    }
  }

  /** A task of a subtree descends from the subtree's top. */
  lemma SubUp(tr: Tree, t: TaskId, y: TaskId)
    requires tr.Wf() && t in tr.kind && y in Sub(tr, t)
    ensures y in tr.kind && tr.Level(y) >= tr.Level(t) && Up(tr, y, tr.Level(t)) == t
  {
    FlattenBelow(tr, t);
  }

  /** A subtree holds the subtrees of its tasks. */
  lemma {:induction false} SubTrans(tr: Tree, t: TaskId, x: TaskId)
    requires tr.Wf() && t in tr.kind && x in Sub(tr, t)
    ensures x in tr.kind && Sub(tr, x) <= Sub(tr, t)
    decreases 4 - tr.Level(t)
  {
    FlattenBelow(tr, t);
    if x != t {
      var n := |tr.children[t]|;
      PrefixBelow(tr, t, n);
      var c := Up(tr, x, tr.Level(t) + 1);
      var i :| 0 <= i < n && tr.children[t][..n][i] == c;
      ChildSub(tr, t, i);
      assert x in Sub(tr, c) by {
        ChildLevel(tr, t, i);
        SubOfChild(tr, t, i, x);
      }
      SubTrans(tr, c, x);
    }
  }

  /** A task below `t` whose ancestor one level below `t` is its `i`th
      child lies in that child's subtree. */
  lemma SubOfChild(tr: Tree, t: TaskId, i: nat, x: TaskId)
    requires tr.Wf() && t in tr.kind && i < |tr.children[t]| && x in Flatten(tr, t)
    requires x in tr.kind && tr.Level(t) + 1 <= tr.Level(x)
    requires Up(tr, x, tr.Level(t) + 1) == tr.children[t][i]
    ensures x in Sub(tr, tr.children[t][i])
  {
    FlattenBelow(tr, t);
    var n := |tr.children[t]|;
    var k := Member(tr, t, n, x);
    var c := tr.children[t][k];
    ChildLevel(tr, t, k);
    if x != c {
      FlattenBelow(tr, c);
    }
    assert Up(tr, x, tr.Level(t) + 1) == c;
    DistinctAt(tr.children[t], i, k);
  }

  /** The child of `t` whose subtree lists `x`. */
  lemma {:induction false} Member(tr: Tree, t: TaskId, n: nat, x: TaskId) returns (k: nat)
    requires tr.Wf() && t in tr.kind && n <= |tr.children[t]| && x in FlatPrefix(tr, t, n)
    ensures k < n && x in Sub(tr, tr.children[t][k])
    decreases n
  {
    ChildLevel(tr, t, n - 1);
    if x in FlatPrefix(tr, t, n - 1) {
      k := Member(tr, t, n - 1, x);
    } else {
      k := n - 1;
    }
  }

  /** A listed descendant's parent lies in the subtree too. */
  lemma {:induction false} ParentInSub(tr: Tree, t: TaskId, c: TaskId)
    requires tr.Wf() && t in tr.kind && c in Flatten(tr, t)
    ensures c in tr.kind && tr.ParentOk(c) && tr.parent[c] in Sub(tr, t)
    decreases 4 - tr.Level(t)
  {
    var k := Member(tr, t, |tr.children[t]|, c);
    var d := tr.children[t][k];
    ChildLevel(tr, t, k);
    if c != d {
      var j := Member(tr, d, |tr.children[d]|, c);
      assert c in Sub(tr, tr.children[d][j]);
      ParentInSub(tr, d, c);
      ChildSub(tr, t, k);
    }
  }

  /** Two different children of `t` have disjoint subtrees, and neither
      holds `t`. */
  lemma SiblingsApart(tr: Tree, t: TaskId, i: nat, j: nat)
    requires tr.Wf() && t in tr.kind && i < |tr.children[t]| && j < |tr.children[t]| && i != j
    ensures Sub(tr, tr.children[t][i]) !! Sub(tr, tr.children[t][j])
    ensures t !in Sub(tr, tr.children[t][i])
  {
    var a, b := tr.children[t][i], tr.children[t][j];
    ChildLevel(tr, t, i);
    ChildLevel(tr, t, j);
    DistinctAt(tr.children[t], i, j);
    forall y | y in Sub(tr, a) && y in Sub(tr, b)
      ensures false
    {
      SubUp(tr, a, y);
      SubUp(tr, b, y);
    }
    if t in Sub(tr, a) {
      SubUp(tr, a, t);
    }
  }

  /** The listing of the first `n` children, as a set. */
  ghost function Below(tr: Tree, t: TaskId, n: nat): set<TaskId>
    requires tr.Wf() && t in tr.kind && n <= |tr.children[t]|
  {
    set x | x in FlatPrefix(tr, t, n)
  }

  /** One more child adds its subtree. */
  lemma BelowStep(tr: Tree, t: TaskId, n: nat)
    requires tr.Wf() && t in tr.kind && n < |tr.children[t]|
    ensures tr.children[t][n] in tr.kind
    ensures Below(tr, t, n + 1) == Below(tr, t, n) + Sub(tr, tr.children[t][n])
    ensures Below(tr, t, n) !! Sub(tr, tr.children[t][n]) && t !in Below(tr, t, n + 1)
    ensures Below(tr, t, n) <= Sub(tr, t)
  {
    var c := tr.children[t][n];
    ChildLevel(tr, t, n);
    assert FlatPrefix(tr, t, n + 1) == FlatPrefix(tr, t, n) + [c] + Flatten(tr, c);
    forall y | y in Below(tr, t, n) && y in Sub(tr, c)
      ensures false
    {
      var k := Member(tr, t, n, y);
      SiblingsApart(tr, t, k, n);
      ChildSub(tr, t, k);
    }
    PrefixBelow(tr, t, n + 1);
    forall y | y in Below(tr, t, n)
      ensures y in Sub(tr, t)
    {
      PrefixIn(tr, t, n, y);
    }
  }

  /** The listing of all the children is the subtree without its top. */
  lemma AllBelow(tr: Tree, t: TaskId)
    requires tr.Wf() && t in tr.kind
    ensures Sub(tr, t) == {t} + Below(tr, t, |tr.children[t]|)
    ensures t !in Below(tr, t, |tr.children[t]|)
  {
    FlattenBelow(tr, t);
  }

  /** In a consistent subtree, a checked top means every task of it is
      checked. */
  lemma {:induction false} ClosedDown(tr: Tree, t: TaskId, cs: set<TaskId>)
    requires tr.Wf() && t in tr.kind && ConsistentIn(tr, Sub(tr, t), cs) && t in cs
    ensures Sub(tr, t) <= cs
    decreases 4 - tr.Level(t)
  {
    forall i | 0 <= i < |tr.children[t]|
      ensures Sub(tr, tr.children[t][i]) <= cs
    {
      var c := tr.children[t][i];
      ChildSub(tr, t, i);
      ChildLevel(tr, t, i);
      assert tr.ChildAt(t, i, c);
      ClosedDown(tr, c, cs);
    }
    forall y | y in Sub(tr, t)
      ensures y in cs
    {
      if y != t {
        var k := Member(tr, t, |tr.children[t]|, y);
      }
    }
  }

  /** Two checked sets that agree on a subtree are equally consistent on
      it. */
  lemma ConsistentAgree(tr: Tree, t: TaskId, cs: set<TaskId>, cs': set<TaskId>)
    requires tr.Wf() && t in tr.kind && ConsistentIn(tr, Sub(tr, t), cs)
    requires forall y :: y in Sub(tr, t) ==> (y in cs <==> y in cs')
    ensures ConsistentIn(tr, Sub(tr, t), cs')
  {
    forall x, i, c | tr.ChildAt(x, i, c) && x in Sub(tr, t) && x in cs'
      ensures c in cs'
    {
      SubTrans(tr, t, x);
      ChildSub(tr, x, i);
    }
  }

  /** Checking `t` checks its whole subtree, when the subtree is
      consistent. */
  lemma {:induction false} CheckSubtree(tr: Tree, t: TaskId, p: bool, cs: set<TaskId>)
    requires tr.Wf() && t in tr.kind && ConsistentIn(tr, Sub(tr, t), cs)
    ensures After(tr, t, true, p, cs) == cs + Sub(tr, t)
    decreases 4 - tr.Level(t), 1
  {
    if t in cs {
      ClosedDown(tr, t, cs);
    } else {
      CheckChildren(tr, t, |tr.children[t]|, cs);
      if tr.kind[t] == MOON {
        assert |tr.children[t]| == 0 by {
          if |tr.children[t]| > 0 {
            ChildLevel(tr, t, 0);
          }
        }
      }
    }
  }

  lemma {:induction false} CheckChildren(tr: Tree, t: TaskId, n: nat, cs: set<TaskId>)
    requires tr.Wf() && t in tr.kind && n <= |tr.children[t]| && ConsistentIn(tr, Sub(tr, t), cs)
    ensures AfterChildren(tr, t, n, true, cs + {t}) == cs + {t} + Below(tr, t, n)
    ensures n == |tr.children[t]| ==> cs + {t} + Below(tr, t, n) == cs + Sub(tr, t)
    decreases 4 - tr.Level(t), 0, n
  {
    if n > 0 {
      var c := tr.children[t][n - 1];
      CheckChildren(tr, t, n - 1, cs);
      BelowStep(tr, t, n - 1);
      ChildSub(tr, t, n - 1);
      ChildLevel(tr, t, n - 1);
      var before := cs + {t} + Below(tr, t, n - 1);
      ConsistentSub(tr, t, c, cs);
      ConsistentAgree(tr, c, cs, before);
      CheckSubtree(tr, c, true, before);
    }
  }

  /** Consistency on a subtree holds on the subtrees inside it. */
  lemma ConsistentSub(tr: Tree, t: TaskId, c: TaskId, cs: set<TaskId>)
    requires tr.Wf() && t in tr.kind && c in tr.kind && Sub(tr, c) <= Sub(tr, t)
    requires ConsistentIn(tr, Sub(tr, t), cs)
    ensures ConsistentIn(tr, Sub(tr, c), cs)
  {
  }

  /** Unchecking a consistent, fully checked subtree whose parent is not
      checked clears the subtree and nothing else. */
  lemma {:induction false} UncheckSubtree(tr: Tree, t: TaskId, cs: set<TaskId>)
    requires tr.Wf() && t in tr.kind && Sub(tr, t) <= cs
    requires tr.kind[t] != GALAXY ==> tr.ParentOk(t) && tr.parent[t] !in cs
    ensures After(tr, t, false, true, cs) == cs - Sub(tr, t)
    decreases 4 - tr.Level(t), 1
  {
    var cs2 := UncheckChildren(tr, t, |tr.children[t]|, cs - {t});
    if tr.kind[t] == MOON {
      assert |tr.children[t]| == 0 by {
        if |tr.children[t]| > 0 {
          ChildLevel(tr, t, 0);
        }
      }
    }
    if tr.kind[t] != GALAXY {
      assert tr.parent[t] !in cs2;
      AncAbove(tr, t);
    }
  }

  lemma {:induction false} UncheckChildren(tr: Tree, t: TaskId, n: nat, cs: set<TaskId>) returns (r: set<TaskId>)
    requires tr.Wf() && t in tr.kind && n <= |tr.children[t]| && t !in cs
    requires Sub(tr, t) - {t} <= cs
    ensures r == AfterChildren(tr, t, n, false, cs) == cs - Below(tr, t, n)
    ensures n == |tr.children[t]| ==> r == cs - Sub(tr, t)
    decreases 4 - tr.Level(t), 0, n
  {
    if n == 0 {
      r := cs;
    } else {
      var c := tr.children[t][n - 1];
      var before := UncheckChildren(tr, t, n - 1, cs);
      BelowStep(tr, t, n - 1);
      ChildSub(tr, t, n - 1);
      ChildLevel(tr, t, n - 1);
      UncheckSubtree(tr, c, before);
      r := before - Sub(tr, c);
    }
  }

  /** Unchecking `x` without propagation clears `x` and the checked
      ancestors, up to the first unchecked one. Along a consistent chain
      that is every ancestor. */
  lemma {:induction false} UncheckUp(tr: Tree, x: TaskId, cs: set<TaskId>)
    requires tr.Wf() && x in tr.kind && ChainConsistent(tr, x, cs)
    ensures After(tr, x, false, false, cs) == cs - ({x} + Anc(tr, x))
    decreases tr.Level(x)
  {
    if x !in cs {
      NoneAbove(tr, x, cs);
    } else if tr.kind[x] != GALAXY {
      var p := tr.parent[x];
      AncAbove(tr, p);
      ChainKept(tr, p, cs, x);
      UncheckUp(tr, p, cs - {x});
    }
  }

  /** Above an unchecked task of a consistent chain nothing is checked. */
  lemma {:induction false} NoneAbove(tr: Tree, x: TaskId, cs: set<TaskId>)
    requires tr.Wf() && x in tr.kind && ChainConsistent(tr, x, cs) && x !in cs
    ensures Anc(tr, x) !! cs
    decreases tr.Level(x)
  {
    if tr.kind[x] != GALAXY {
      NoneAbove(tr, tr.parent[x], cs);
    }
  }

  /** Removing a task below the chain keeps the chain consistent. */
  lemma {:induction false} ChainKept(tr: Tree, x: TaskId, cs: set<TaskId>, y: TaskId)
    requires tr.Wf() && x in tr.kind && y in tr.kind && tr.Level(y) > tr.Level(x)
    requires ChainConsistent(tr, x, cs)
    ensures ChainConsistent(tr, x, cs - {y})
    decreases tr.Level(x)
  {
    if tr.kind[x] != GALAXY {
      ChainKept(tr, tr.parent[x], cs, y);
    }
  }

  /** A consistent checked set is consistent along every attached chain. */
  lemma {:induction false} AttachedChain(tr: Tree, x: TaskId, cs: set<TaskId>)
    requires tr.Wf() && x in tr.kind && Attached(tr, x) && Consistent(tr, cs)
    ensures ChainConsistent(tr, x, cs)
    decreases tr.Level(x)
  {
    if tr.kind[x] != GALAXY {
      var p := tr.parent[x];
      var i :| 0 <= i < |tr.children[p]| && tr.children[p][i] == x;
      assert tr.ChildAt(p, i, x);
      AttachedChain(tr, p, cs);
    }
  }

  /** `t.setChecked(true, p)` on a consistent tree checks `t` and its whole
      subtree and nothing else. */
  lemma CheckAll(tr: Tree, t: TaskId, p: bool, cs: set<TaskId>)
    requires tr.Wf() && t in tr.kind && Consistent(tr, cs)
    ensures After(tr, t, true, p, cs) == cs + Sub(tr, t)
  {
    CheckSubtree(tr, t, p, cs);
  }

  /** `t.setChecked(false, true)` on a consistent tree, for an attached,
      checked `t`: the subtree and every ancestor end unchecked, and
      nothing else changes. */
  lemma UncheckAll(tr: Tree, t: TaskId, cs: set<TaskId>)
    requires tr.Wf() && t in tr.kind && Consistent(tr, cs) && Attached(tr, t) && t in cs
    ensures After(tr, t, false, true, cs) == cs - Sub(tr, t) - Anc(tr, t)
  {
    ClosedDown(tr, t, cs);
    var cs2 := UncheckChildren(tr, t, |tr.children[t]|, cs - {t});
    if tr.kind[t] == MOON {
      assert |tr.children[t]| == 0 by {
        if |tr.children[t]| > 0 {
          ChildLevel(tr, t, 0);
        }
      }
    }
    if tr.kind[t] != GALAXY {
      var p := tr.parent[t];
      AttachedChain(tr, p, cs);
      AncAbove(tr, t);
      SubBelowAnc(tr, t);
      ChainAgree(tr, p, cs, cs2);
      UncheckUp(tr, p, cs2);
    }
  }

  /** `t.setChecked(false, false)` on a consistent tree, for an attached
      `t`: `t` and every ancestor end unchecked, and nothing else changes. */
  lemma UncheckAlone(tr: Tree, t: TaskId, cs: set<TaskId>)
    requires tr.Wf() && t in tr.kind && Consistent(tr, cs) && Attached(tr, t)
    ensures After(tr, t, false, false, cs) == cs - ({t} + Anc(tr, t))
  {
    AttachedChain(tr, t, cs);
    UncheckUp(tr, t, cs);
  }

  /** The subtree of `t` and its ancestors do not meet. */
  lemma SubBelowAnc(tr: Tree, t: TaskId)
    requires tr.Wf() && t in tr.kind
    ensures Sub(tr, t) !! Anc(tr, t)
  {
    AncAbove(tr, t);
    FlattenBelow(tr, t);
  }

  /** Chain consistency only looks at the chain. */
  lemma {:induction false} ChainAgree(tr: Tree, x: TaskId, cs: set<TaskId>, cs': set<TaskId>)
    requires tr.Wf() && x in tr.kind && ChainConsistent(tr, x, cs)
    requires forall y :: y in {x} + Anc(tr, x) ==> (y in cs <==> y in cs')
    ensures ChainConsistent(tr, x, cs')
    decreases tr.Level(x)
  {
    if tr.kind[x] != GALAXY {
      ChainAgree(tr, tr.parent[x], cs, cs');
    }
  }
  /** The parent of an ancestor is an ancestor. */
  lemma {:induction false} AncClosed(tr: Tree, x: TaskId, a: TaskId)
    requires tr.Wf() && x in tr.kind && a in Anc(tr, x) && a in tr.kind && tr.kind[a] != GALAXY
    ensures tr.ParentOk(a) && tr.parent[a] in Anc(tr, x)
    decreases tr.Level(x)
  {
    assert a != tr.root && tr.ParentOk(a);
    assert x != tr.root && tr.ParentOk(x);
    var p := tr.parent[x];
    if a != p {
      AncClosed(tr, p, a);
    }
  }

  /** `setChecked` keeps a consistent checked set consistent: whatever is
      checked has all its children checked. */
  lemma KeepsConsistent(tr: Tree, t: TaskId, v: bool, p: bool, cs: set<TaskId>)
    requires tr.Wf() && t in tr.kind && Consistent(tr, cs) && Attached(tr, t)
    ensures Consistent(tr, After(tr, t, v, p, cs))
  {
    var r := After(tr, t, v, p, cs);
    if v {
      CheckAll(tr, t, p, cs);
      forall x, i, c | tr.ChildAt(x, i, c) && x in r
        ensures c in r
      {
        if x in Sub(tr, t) {
          SubTrans(tr, t, x);
          ChildSub(tr, x, i);
        }
      }
    } else if p && t !in cs {
    } else if p {
      UncheckAll(tr, t, cs);
      forall x, i, c | tr.ChildAt(x, i, c) && x in r
        ensures c in r
      {
        assert tr.ChildOk(x, c);
        if c in Sub(tr, t) && c != t {
          ParentInSub(tr, t, c);
        }
        if c in Anc(tr, t) && tr.kind[c] != GALAXY {
          AncClosed(tr, t, c);
        }
      }
    } else {
      UncheckAlone(tr, t, cs);
      forall x, i, c | tr.ChildAt(x, i, c) && x in r
        ensures c in r
      {
        assert tr.ChildOk(x, c);
        if c in Anc(tr, t) && tr.kind[c] != GALAXY {
          AncClosed(tr, t, c);
        }
      }
    }
  }
  /** Unchecking without propagation only climbs, so it depends on the
      kinds and the parent links and not on the children lists. */
  lemma {:induction false} UpOnly(tr: Tree, tr': Tree, t: TaskId, cs: set<TaskId>)
    requires tr.Wf() && tr'.Wf() && t in tr.kind
    requires tr'.root == tr.root && tr'.kind == tr.kind && tr'.parent == tr.parent
    ensures After(tr', t, false, false, cs) == After(tr, t, false, false, cs)
    decreases tr.Level(t)
  {
    if t in cs && tr.kind[t] != GALAXY {
      assert tr.ParentOk(t);
      UpOnly(tr, tr', tr.parent[t], cs - {t});
    }
  }

  /** Checking only adds flags and unchecking only takes them away. */
  lemma {:induction false} AfterMonotone(tr: Tree, t: TaskId, v: bool, p: bool, cs: set<TaskId>)
    requires tr.Wf() && t in tr.kind
    ensures v ==> cs <= After(tr, t, v, p, cs)
    ensures !v ==> After(tr, t, v, p, cs) <= cs
    decreases Measure(tr, t, v, p), |tr.children[t]| + 1
  {
    if (t in cs) != v {
      var cs1 := if v then cs + {t} else cs - {t};
      var cs2 := if tr.kind[t] != MOON && (p || v) then AfterChildren(tr, t, |tr.children[t]|, v, cs1) else cs1;
      if tr.kind[t] != MOON && (p || v) {
        ChildrenMonotone(tr, t, |tr.children[t]|, v, cs1);
      }
      if tr.kind[t] != GALAXY && !v {
        assert tr.ParentOk(t);
        AfterMonotone(tr, tr.parent[t], false, false, cs2);
      }
    }
  }

  lemma {:induction false} ChildrenMonotone(tr: Tree, t: TaskId, n: nat, v: bool, cs: set<TaskId>)
    requires tr.Wf() && t in tr.kind && n <= |tr.children[t]|
    ensures v ==> cs <= AfterChildren(tr, t, n, v, cs)
    ensures !v ==> AfterChildren(tr, t, n, v, cs) <= cs
    decreases 9 - tr.Level(t), n
  {
    if n > 0 {
      ChildLevel(tr, t, n - 1);
      ChildrenMonotone(tr, t, n - 1, v, cs);
      AfterMonotone(tr, tr.children[t][n - 1], v, true, AfterChildren(tr, t, n - 1, v, cs));
    }
  }

  /** Whatever the flags were, `t.setChecked(v, p)` leaves `t` with flag
      `v`, so doing it a second time changes nothing. */
  lemma AfterSettles(tr: Tree, t: TaskId, v: bool, p: bool, cs: set<TaskId>)
    requires tr.Wf() && t in tr.kind
    ensures (t in After(tr, t, v, p, cs)) == v
    ensures After(tr, t, v, p, After(tr, t, v, p, cs)) == After(tr, t, v, p, cs)
  {
    if (t in cs) != v {
      var cs1 := if v then cs + {t} else cs - {t};
      var cs2 := if tr.kind[t] != MOON && (p || v) then AfterChildren(tr, t, |tr.children[t]|, v, cs1) else cs1;
      if tr.kind[t] != MOON && (p || v) {
        ChildrenMonotone(tr, t, |tr.children[t]|, v, cs1);
      }
      if tr.kind[t] != GALAXY && !v {
        assert tr.ParentOk(t);
        AfterMonotone(tr, tr.parent[t], false, false, cs2);
      }
    }
  }
}
