/** The orderings of a task's children list: sorting it by the tasks'
    `order` (the stable sort of `sortChildren`), and taking one entry out
    of it (`splice` at a `findIndex` position). */
module Ordering {
  import opened Common

  /** Every task of `s` has an order. */
  ghost predicate Keyed(s: seq<TaskId>, ord: map<TaskId, int>)
  {
    forall x :: x in s ==> x in ord
  }

  /** `s` lists its tasks by non-decreasing order. */
  ghost predicate SortedBy(s: seq<TaskId>, ord: map<TaskId, int>)
    requires Keyed(s, ord)
  {
    forall i, j :: 0 <= i < j < |s| ==> ord[s[i]] <= ord[s[j]]
  }

  /** `x` put into `s` after every task whose order is not larger. */
  function Insert(x: TaskId, s: seq<TaskId>, ord: map<TaskId, int>): (r: seq<TaskId>)
    requires x in ord && Keyed(s, ord)
    ensures multiset(r) == multiset(s) + multiset{x}
    ensures Keyed(r, ord)
  {
    if s == [] then [x]
    else
      var last := s[|s| - 1];
      assert s == s[..|s| - 1] + [last];
      if ord[last] <= ord[x] then s + [x]
      else
        var r := Insert(x, s[..|s| - 1], ord) + [last];
        assert forall y :: y in r ==> y in multiset(r);
        r
  }

  /** `s` sorted by order, equal orders keeping their places. */
  function SortByOrder(s: seq<TaskId>, ord: map<TaskId, int>): (r: seq<TaskId>)
    requires Keyed(s, ord)
    ensures multiset(r) == multiset(s)
    ensures Keyed(r, ord)
  {
    if s == [] then []
    else
      assert s == s[..|s| - 1] + [s[|s| - 1]];
      Insert(s[|s| - 1], SortByOrder(s[..|s| - 1], ord), ord)
  }

  /** Inserting into a sorted list keeps it sorted. */
  lemma {:induction false} InsertSorted(x: TaskId, s: seq<TaskId>, ord: map<TaskId, int>)
    requires x in ord && Keyed(s, ord) && SortedBy(s, ord)
    ensures SortedBy(Insert(x, s, ord), ord)
  {
    if s != [] {
      var last := s[|s| - 1];
      var init := s[..|s| - 1];
      assert s == init + [last];
      if ord[x] < ord[last] {
        InsertSorted(x, init, ord);
        var m := Insert(x, init, ord);
        assert Insert(x, s, ord) == m + [last];
        InsertBelow(x, s, ord);
        SnocSorted(m, last, ord);
      } else {
        SnocSorted(s, x, ord);
      }
    }
  }

  /** What is inserted before the last entry of a sorted list has an order
      no larger than that entry's. */
  lemma InsertBelow(x: TaskId, s: seq<TaskId>, ord: map<TaskId, int>)
    requires x in ord && Keyed(s, ord) && SortedBy(s, ord) && s != []
    requires ord[x] < ord[s[|s| - 1]]
    ensures forall y :: y in Insert(x, s[..|s| - 1], ord) ==> ord[y] <= ord[s[|s| - 1]]
  {
    var init := s[..|s| - 1];
    var m := Insert(x, init, ord);
    forall y | y in m
      ensures ord[y] <= ord[s[|s| - 1]]
    {
      assert y in multiset(m);
      if y != x {
        assert y in multiset(init);
        var k :| 0 <= k < |init| && init[k] == y;
        assert s[k] == y;
      }
    }
  }

  /** A sorted list followed by a task whose order is not smaller than any
      of its tasks' is sorted. */
  lemma SnocSorted(s: seq<TaskId>, x: TaskId, ord: map<TaskId, int>)
    requires x in ord && Keyed(s, ord) && SortedBy(s, ord)
    requires forall y :: y in s ==> ord[y] <= ord[x]
    ensures Keyed(s + [x], ord) && SortedBy(s + [x], ord)
  {
    var r := s + [x];
    forall i, j | 0 <= i < j < |r|
      ensures ord[r[i]] <= ord[r[j]]
    {
      assert r[i] == s[i] && s[i] in s;
      if j < |s| {
        assert r[j] == s[j];
      }
    }
  }

  /** `SortByOrder` sorts. */
  lemma {:induction false} SortSorted(s: seq<TaskId>, ord: map<TaskId, int>)
    requires Keyed(s, ord)
    ensures SortedBy(SortByOrder(s, ord), ord)
  {
    if s != [] {
      SortSorted(s[..|s| - 1], ord);
      InsertSorted(s[|s| - 1], SortByOrder(s[..|s| - 1], ord), ord);
    }
  }

  /** The tasks of `s` whose order is `k`, in their order in `s`. */
  ghost function WithOrder(s: seq<TaskId>, ord: map<TaskId, int>, k: int): seq<TaskId>
    requires Keyed(s, ord)
  {
    if s == [] then []
    else
      var last := s[|s| - 1];
      assert last in s;
      WithOrder(s[..|s| - 1], ord, k) + (if ord[last] == k then [last] else [])
  }

  /** Inserting `x` puts it after every task with the same order. */
  lemma {:induction false} InsertStable(x: TaskId, s: seq<TaskId>, ord: map<TaskId, int>, k: int)
    requires x in ord && Keyed(s, ord)
    ensures WithOrder(Insert(x, s, ord), ord, k) == WithOrder(s, ord, k) + (if ord[x] == k then [x] else [])
  {
    if s == [] {
      WithOrderSnoc([], x, ord, k);
    } else {
      var last := s[|s| - 1];
      var init := s[..|s| - 1];
      assert s == init + [last];
      if ord[last] <= ord[x] {
        WithOrderSnoc(s, x, ord, k);
      } else {
        InsertStable(x, init, ord, k);
        var m := Insert(x, init, ord);
        WithOrderSnoc(m, last, ord, k);
        WithOrderSnoc(init, last, ord, k);
        assert ord[x] != k || ord[last] != k;
      }
    }
  }

  /** A task added at the end comes last among the tasks of its order. */
  lemma WithOrderSnoc(s: seq<TaskId>, y: TaskId, ord: map<TaskId, int>, k: int)
    requires y in ord && Keyed(s, ord)
    ensures Keyed(s + [y], ord)
    ensures WithOrder(s + [y], ord, k) == WithOrder(s, ord, k) + (if ord[y] == k then [y] else [])
  {
    assert (s + [y])[..|s|] == s;
  }

  /** `SortByOrder` is stable: the tasks sharing any one order keep their
      relative places. */
  lemma {:induction false} SortStable(s: seq<TaskId>, ord: map<TaskId, int>, k: int)
    requires Keyed(s, ord)
    ensures WithOrder(SortByOrder(s, ord), ord, k) == WithOrder(s, ord, k)
  {
    if s != [] {
      SortStable(s[..|s| - 1], ord, k);
      InsertStable(s[|s| - 1], SortByOrder(s[..|s| - 1], ord), ord, k);
    }
  }

  /** Two lists with the same elements, counted with repeats, hold the same
      tasks, and one is without repeats when the other is. */
  lemma SamePerm(a: seq<TaskId>, b: seq<TaskId>)
    requires multiset(a) == multiset(b)
    ensures forall x :: x in a <==> x in b
    ensures Distinct(a) ==> Distinct(b)
  {
    assert forall x :: x in a <==> x in multiset(a);
    assert forall x :: x in b <==> x in multiset(b);
    if Distinct(a) {
      DistinctCount(a);
      CountDistinct(b);
    }
  }

  /** A list without repeats holds each task once at most. */
  lemma {:induction false} DistinctCount(s: seq<TaskId>)
    requires Distinct(s)
    ensures forall x :: multiset(s)[x] <= 1
  {
    if s != [] {
      var init := s[..|s| - 1];
      DistinctPrefix(s, |s| - 1);
      DistinctCount(init);
      assert s == init + [s[|s| - 1]];
      forall k | 0 <= k < |init|
        ensures init[k] != s[|s| - 1]
      {
        assert Differ(s, k, |s| - 1);
      }
    }
  }

  /** A list that holds each task once at most has no repeats. */
  lemma {:induction false} CountDistinct(s: seq<TaskId>)
    requires forall x :: multiset(s)[x] <= 1
    ensures Distinct(s)
  {
    if s != [] {
      var init := s[..|s| - 1];
      var last := s[|s| - 1];
      assert s == init + [last];
      assert forall x :: multiset(init)[x] <= multiset(s)[x];
      CountDistinct(init);
      assert multiset(s)[last] == multiset(init)[last] + 1;
      assert last !in multiset(init);
      DistinctSnoc(init, last);
    }
  }

  /** `children.findIndex(c => c === x)`: the first position of `x`, or -1. */
  function IndexOf(s: seq<TaskId>, x: TaskId): (i: int)
    ensures -1 <= i < |s|
    ensures i == -1 <==> x !in s
    ensures i >= 0 ==> s[i] == x && x !in s[..i]
  {
    if s == [] then -1
    else if s[0] == x then 0
    else
      var j := IndexOf(s[1..], x);
      assert s == [s[0]] + s[1..];
      if j == -1 then -1 else (assert s[..j + 1] == [s[0]] + s[1..][..j]; j + 1)
  }

  /** `s.splice(start, 1)` for a start from -1 up: a negative start counts
      from the end, so -1 takes out the last entry. */
  function SpliceOne(s: seq<TaskId>, start: int): (r: seq<TaskId>)
    requires -1 <= start < |s|
    ensures |s| > 0 ==> |r| == |s| - 1
    ensures s == [] ==> r == []
  {
    if s == [] then []
    else if start == -1 then s[..|s| - 1]
    else s[..start] + s[start + 1..]
  }

  /** Taking a child out of a list leaves exactly the other entries,
      in order. */
  lemma SpliceFound(s: seq<TaskId>, x: TaskId)
    requires Distinct(s) && x in s
    ensures var r := SpliceOne(s, IndexOf(s, x));
      (forall y :: y in r <==> y in s && y != x) && Distinct(r)
  {
    var i := IndexOf(s, x);
    var r := SpliceOne(s, i);
    assert r == s[..i] + s[i + 1..];
    forall y | y in s && y != x
      ensures y in r
    {
      var k :| 0 <= k < |s| && s[k] == y;
      if k < i {
        assert r[k] == y;
      } else {
        assert r[k - 1] == y;
      }
    }
    forall y | y in r
      ensures y in s && y != x
    {
      var k :| 0 <= k < |r| && r[k] == y;
      if k < i {
        assert s[k] == y;
        DistinctAt(s, k, i);
      } else {
        assert s[k + 1] == y;
        DistinctAt(s, k + 1, i);
      }
    }
    forall a, b | 0 <= a < b < |r|
      ensures Differ(r, a, b)
    {
      var a', b' := if a < i then a else a + 1, if b < i then b else b + 1;
      assert r[a] == s[a'] && r[b] == s[b'];
      DistinctAt(s, a', b');
    }
  }

  /** Asking to take out a task the list does not hold takes out the last
      entry instead. */
  lemma SpliceMissing(s: seq<TaskId>, x: TaskId)
    requires x !in s && s != []
    ensures SpliceOne(s, IndexOf(s, x)) == s[..|s| - 1]
  {
  }

  /** Whatever the start, the splice keeps no task twice and brings in no
      task. */
  lemma SpliceDistinct(s: seq<TaskId>, start: int)
    requires Distinct(s) && -1 <= start < |s|
    ensures Distinct(SpliceOne(s, start)) && forall y :: y in SpliceOne(s, start) ==> y in s
  {
    if s != [] {
      if start == -1 {
        DistinctPrefix(s, |s| - 1);
        assert forall y :: y in s[..|s| - 1] ==> y in s;
      } else {
        SpliceFound(s, s[start]);
        assert IndexOf(s, s[start]) == start by {
          var k := IndexOf(s, s[start]);
          DistinctAt(s, k, start);
        }
      }
    }
  }

  /** `ord1` is `ord0` with the task at each position `i` from `lo` on given
      order `i + off`. */
  ghost predicate NumberedFrom(ord0: map<TaskId, int>, ord1: map<TaskId, int>, cs: seq<TaskId>, lo: nat, off: int)
    requires lo <= |cs|
  {
    && ord1.Keys == ord0.Keys + (set i | lo <= i < |cs| :: cs[i])
    && (forall i :: lo <= i < |cs| ==> ord1[cs[i]] == i + off)
    && (forall x :: x in ord0 && x !in cs[lo..] ==> ord1[x] == ord0[x])
  }
}
