/** The shape of a galaxy's task tree, as a value: which tasks exist, their
    kinds, their children lists and their parent links. A galaxy holds
    sectors, a sector systems, a system planets and a planet moons, so every
    child sits exactly one level below its parent and the recursions over
    the tree stop at the moons. */
module TaskTree {
  import opened Common

  datatype Tree = Tree(root: TaskId, kind: map<TaskId, TaskType>,
                       children: map<TaskId, seq<TaskId>>, parent: map<TaskId, TaskId>)
  {
    /** Every task but the galaxy has a parent one level up. */
    ghost predicate ParentOk(t: TaskId)
    {
      t in kind && t in parent && parent[t] in kind && kind[parent[t]].Level() + 1 == kind[t].Level()
    }

    /** `c` is listed as a child of `t` and links back to it. */
    ghost predicate ChildOk(t: TaskId, c: TaskId)
    {
      c in kind && c != root && ParentOk(c) && parent[c] == t
    }

    /** `c` is the `i`th child of `t`. */
    ghost predicate ChildAt(t: TaskId, i: int, c: TaskId)
    {
      t in children && 0 <= i < |children[t]| && children[t][i] == c
    }

    ghost predicate Wf()
    {
      && root in kind && kind[root] == GALAXY
      && kind.Keys == children.Keys
      && (forall t {:trigger ParentOk(t)} :: t in kind && t != root ==> ParentOk(t))
      && (forall t, i, c :: ChildAt(t, i, c) ==> ChildOk(t, c))
      && (forall t, c :: t in children && c in children[t] ==> c in kind)
      && (forall t :: t in children ==> Distinct(children[t]))
    }

    function Level(t: TaskId): nat
      requires t in kind
    {
      kind[t].Level()
    }
  }

  /** The children of `t` are one level below it. */
  lemma ChildLevel(tr: Tree, t: TaskId, i: int)
    requires tr.Wf() && t in tr.kind && 0 <= i < |tr.children[t]|
    ensures tr.ChildOk(t, tr.children[t][i])
    ensures tr.Level(tr.children[t][i]) == tr.Level(t) + 1
  {
    assert tr.ChildAt(t, i, tr.children[t][i]);
  }

  /** The listing of the descendants of `t` made by getFlattenedChildren:
      each child, then the listing of its own descendants. */
  ghost function Flatten(tr: Tree, t: TaskId): seq<TaskId>
    requires tr.Wf() && t in tr.kind
    decreases 4 - tr.Level(t), |tr.children[t]| + 1
  {
    FlatPrefix(tr, t, |tr.children[t]|)
  }

  /** The same listing for the first `n` children of `t`. */
  ghost function FlatPrefix(tr: Tree, t: TaskId, n: nat): seq<TaskId>
    requires tr.Wf() && t in tr.kind && n <= |tr.children[t]|
    decreases 4 - tr.Level(t), n
  {
    if n == 0 then []
    else
      var c := tr.children[t][n - 1];
      ChildLevel(tr, t, n - 1);
      FlatPrefix(tr, t, n - 1) + [c] + Flatten(tr, c)
  }

  /** `t` and all its descendants. */
  ghost function Sub(tr: Tree, t: TaskId): set<TaskId>
    requires tr.Wf() && t in tr.kind
  {
    {t} + set x | x in Flatten(tr, t)
  }

  /** The ancestor of `x` at level `l` (`x` itself at its own level). */
  ghost function Up(tr: Tree, x: TaskId, l: nat): (a: TaskId)
    requires tr.Wf() && x in tr.kind && l <= tr.Level(x)
    ensures a in tr.kind && tr.Level(a) == l
    decreases tr.Level(x)
  {
    if tr.Level(x) == l then x
    else
      assert x != tr.root && tr.ParentOk(x);
      Up(tr, tr.parent[x], l)
  }

  /** Climbing to level `m` and then to level `l` is climbing to `l`. */
  lemma {:induction false} UpUp(tr: Tree, x: TaskId, m: nat, l: nat)
    requires tr.Wf() && x in tr.kind && l <= m <= tr.Level(x)
    ensures Up(tr, Up(tr, x, m), l) == Up(tr, x, l)
    decreases tr.Level(x)
  {
    if tr.Level(x) != m {
      assert x != tr.root && tr.ParentOk(x);
      UpUp(tr, tr.parent[x], m, l);
    }
  }

  /** Every task listed under `t` is a task, deeper than `t`, whose
      ancestor at the level of `t` is `t`. */
  lemma {:induction false} FlattenBelow(tr: Tree, t: TaskId)
    requires tr.Wf() && t in tr.kind
    ensures forall x :: x in Flatten(tr, t) ==>
      x in tr.kind && tr.Level(x) > tr.Level(t) && Up(tr, x, tr.Level(t)) == t
    decreases 4 - tr.Level(t), |tr.children[t]| + 1
  {
    PrefixBelow(tr, t, |tr.children[t]|);
  }

  /** What FlattenBelow says, for the first `n` children, together with
      which child each listed task descends from. */
  lemma {:induction false} PrefixBelow(tr: Tree, t: TaskId, n: nat)
    requires tr.Wf() && t in tr.kind && n <= |tr.children[t]|
    ensures forall x :: x in FlatPrefix(tr, t, n) ==>
      && x in tr.kind && tr.Level(x) > tr.Level(t) && Up(tr, x, tr.Level(t)) == t
      && Up(tr, x, tr.Level(t) + 1) in tr.children[t][..n]
    decreases 4 - tr.Level(t), n
  {
    if n > 0 {
      var c := tr.children[t][n - 1];
      ChildLevel(tr, t, n - 1);
      PrefixBelow(tr, t, n - 1);
      FlattenBelow(tr, c);
      var l := tr.Level(t);
      forall x | x in FlatPrefix(tr, t, n)
        ensures x in tr.kind && tr.Level(x) > l && Up(tr, x, l) == t
        ensures Up(tr, x, l + 1) in tr.children[t][..n]
      {
        if x in FlatPrefix(tr, t, n - 1) {
          assert tr.children[t][..n - 1] <= tr.children[t][..n];
        } else if x == c {
          assert tr.children[t][..n][n - 1] == c;
        } else {
          assert x in Flatten(tr, c);
          UpUp(tr, x, l + 1, l);
          assert tr.children[t][..n][n - 1] == c;
        }
      }
    }
  }

  /** No task is listed twice: sibling subtrees do not overlap. */
  lemma {:induction false} FlattenDistinct(tr: Tree, t: TaskId)
    requires tr.Wf() && t in tr.kind
    ensures Distinct(Flatten(tr, t))
    decreases 4 - tr.Level(t), |tr.children[t]| + 1
  {
    PrefixDistinct(tr, t, |tr.children[t]|);
  }

  lemma {:induction false} PrefixDistinct(tr: Tree, t: TaskId, n: nat)
    requires tr.Wf() && t in tr.kind && n <= |tr.children[t]|
    ensures Distinct(FlatPrefix(tr, t, n))
    decreases 4 - tr.Level(t), n
  {
    if n > 0 {
      var cs := tr.children[t];
      var c := cs[n - 1];
      ChildLevel(tr, t, n - 1);
      PrefixDistinct(tr, t, n - 1);
      FlattenDistinct(tr, c);
      var p := FlatPrefix(tr, t, n - 1);
      assert Distinct([c] + Flatten(tr, c)) by {
        FlattenBelow(tr, c);
        DistinctConcat([c], Flatten(tr, c));
      }
      PrefixApart(tr, t, n);
      DistinctConcat(p, [c] + Flatten(tr, c));
      assert p + [c] + Flatten(tr, c) == p + ([c] + Flatten(tr, c));
    }
  }

  /** The listing of the first `n - 1` children shares no task with the
      `n`th child and its listing. */
  lemma PrefixApart(tr: Tree, t: TaskId, n: nat)
    requires tr.Wf() && t in tr.kind && 0 < n <= |tr.children[t]|
    ensures var c := tr.children[t][n - 1];
      forall x :: x in FlatPrefix(tr, t, n - 1) ==> x !in [c] + Flatten(tr, c)
  {
    var cs := tr.children[t];
    var c := cs[n - 1];
    ChildLevel(tr, t, n - 1);
    PrefixBelow(tr, t, n - 1);
    FlattenBelow(tr, c);
    var l := tr.Level(t);
    forall x | x in FlatPrefix(tr, t, n - 1)
      ensures x !in [c] + Flatten(tr, c)
    {
      var a := Up(tr, x, l + 1);
      var k :| 0 <= k < n - 1 && cs[..n - 1][k] == a;
      DistinctAt(cs, k, n - 1);
    }
  }

  /** The listing of `t` is the listing of its first `n` children followed
      by the rest. */
  lemma {:induction false} PrefixIn(tr: Tree, t: TaskId, n: nat, x: TaskId)
    requires tr.Wf() && t in tr.kind && n <= |tr.children[t]| && x in FlatPrefix(tr, t, n)
    ensures x in Flatten(tr, t)
    decreases |tr.children[t]| - n
  {
    if n < |tr.children[t]| {
      ChildLevel(tr, t, n);
      PrefixIn(tr, t, n + 1, x);
    }
  }

  /** A child of `t` and all of its subtree lie in the subtree of `t`. */
  lemma ChildSub(tr: Tree, t: TaskId, i: nat)
    requires tr.Wf() && t in tr.kind && i < |tr.children[t]|
    ensures tr.children[t][i] in tr.kind
    ensures Sub(tr, tr.children[t][i]) <= Sub(tr, t)
  {
    var c := tr.children[t][i];
    ChildLevel(tr, t, i);
    forall x | x in Sub(tr, c)
      ensures x in Sub(tr, t)
    {
      assert x in FlatPrefix(tr, t, i + 1);
      PrefixIn(tr, t, i + 1, x);
    }
  }
  /** Linking a detached task to a parent one level up keeps the tree well
      formed. */
  lemma Reparent(tr: Tree, item: TaskId, t: TaskId)
    requires tr.Wf() && item in tr.kind && item != tr.root && t in tr.kind
    requires tr.Level(t) + 1 == tr.Level(item)
    requires forall x :: x in tr.children ==> item !in tr.children[x]
    ensures tr.(parent := tr.parent[item := t]).Wf()
  {
    var tr' := tr.(parent := tr.parent[item := t]);
    forall x | x in tr'.kind && x != tr'.root
      ensures tr'.ParentOk(x)
    {
      assert tr.ParentOk(x);
    }
    forall x, i, c | tr'.ChildAt(x, i, c)
      ensures tr'.ChildOk(x, c)
    {
      assert tr.ChildAt(x, i, c) && tr.ChildOk(x, c);
    }
  }

  /** Giving `t` any list of distinct tasks that all link back to it as
      their parent keeps the tree well formed. */
  lemma Relist(tr: Tree, t: TaskId, s: seq<TaskId>)
    requires tr.Wf() && t in tr.kind && Distinct(s)
    requires forall c :: c in s ==> tr.ChildOk(t, c)
    ensures tr.(children := tr.children[t := s]).Wf()
  {
    var tr' := tr.(children := tr.children[t := s]);
    forall x | x in tr'.kind && x != tr'.root
      ensures tr'.ParentOk(x)
    {
      assert tr.ParentOk(x);
    }
    forall x, i, c | tr'.ChildAt(x, i, c)
      ensures tr'.ChildOk(x, c)
    {
      if x == t {
        assert c in s;
      } else {
        assert tr.ChildAt(x, i, c);
      }
    }
  }
  /** Every child of `t` links back to it. */
  lemma ChildrenOk(tr: Tree, t: TaskId)
    requires tr.Wf() && t in tr.kind
    ensures forall c :: c in tr.children[t] ==> tr.ChildOk(t, c)
  {
    forall c | c in tr.children[t]
      ensures tr.ChildOk(t, c)
    {
      var i :| 0 <= i < |tr.children[t]| && tr.children[t][i] == c;
      assert tr.ChildAt(t, i, c);
    }
  }
}
