/** The tasks of one galaxy. The source's `Task` objects link to each other
    through `parent` and `children`; here the galaxy owns them all and keeps
    each task field as a map (or, for a flag, a set) keyed by task id, so a
    method that changes one field of many tasks modifies that one column. */
module Tasks {
  import opened Common
  import opened TaskTree
  import opened Checking
  import opened TaskSpec
  import opened Backups
  import opened Ordering

  class Galaxy {
    /** The galaxy task itself. */
    const root: TaskId
    var kind: map<TaskId, TaskType>
    var children: map<TaskId, seq<TaskId>>
    var parent: map<TaskId, TaskId>
    var checked: set<TaskId>
    var closed: set<TaskId>
    var removed: set<TaskId>
    /** Tasks whose `newItemIndex` is set (being created in the editor). */
    var newItem: set<TaskId>
    /** `order`; a task without one is absent. */
    var order: map<TaskId, int>
    /** `data.difficulty` of planets and moons. */
    var difficulty: map<TaskId, int>
    /** `data.coords` of systems; a system without coordinates is absent. */
    var coords: map<TaskId, Coord>
    /** The galaxy's completion counters. */
    var stats: Stats
    /** The plain fields that played-back actions overwrite: `name`,
        `description`, `priority`, `content`, the `encrypted` flag, and the
        `data` fields `color` (sectors and the galaxy), `pattern` and
        `emblem` (sectors) and `theme` (the galaxy). */
    var name: map<TaskId, string>
    var description: map<TaskId, string>
    var priority: map<TaskId, int>
    var content: map<TaskId, string>
    var encrypted: set<TaskId>
    var color: map<TaskId, TaskColor>
    var pattern: map<TaskId, int>
    var emblem: map<TaskId, string>
    var theme: map<TaskId, string>
    /** The galaxy's saved `date`, its `lastModificationDate`, and whether it
        differs from what was saved. */
    var date: string
    var lastModificationDate: string
    var needToSave: bool
    /** The undo history, oldest first, and the steps undone since the last
        change, most recently undone last. */
    var bkps: seq<BackupStep>
    var bkpsForward: seq<BackupStep>

    ghost function View(): Tree
      reads this`kind, this`children, this`parent
    {
      Tree(root, kind, children, parent)
    }

    /** The tree is well formed, and every planet has a difficulty. */
    ghost predicate Valid()
      reads this`kind, this`children, this`parent, this`difficulty
    {
      View().Wf() && forall x :: x in kind && kind[x] == PLANET ==> x in difficulty
    }

    /** The counters less the checked, counted tasks they count. Removed
        tasks and new items change no counter when checked. */
    ghost function CounterSlack(): Stats
      reads this`stats, this`kind, this`checked, this`removed, this`newItem
    {
      Slack(stats, kind, checked, removed + newItem)
    }

    /** `setChecked(v, propagate)` of every task kind at once: the flags
        change as `After` says, and each counter moves with the checked,
        counted tasks of its kind. */
    method SetChecked(t: TaskId, v: bool, p: bool)
      requires Valid() && t in kind
      modifies this`checked, this`stats
      ensures checked == After(View(), t, v, p, old(checked))
      ensures CounterSlack() == old(CounterSlack())
      decreases Measure(View(), t, v, p), 1
    {
      if (t in checked) == v {
        return;
      }
      ghost var tr, ex, st0, cs0 := View(), removed + newItem, stats, checked;
      var k := kind[t];
      var d := if t !in removed && t !in newItem then (if v then 1 else -1) else 0;
      checked := if v then checked + {t} else checked - {t};
      ghost var cs1, mid := checked, CounterSlack();
      if k != MOON && (p || v) {
        SetChildrenChecked(t, v);
        assert View() == tr;
      }
      ghost var cs2 := checked;
      assert cs2 == if k != MOON && (p || v) then AfterChildren(tr, t, |tr.children[t]|, v, cs1) else cs1;
      assert removed + newItem == ex;
      if k != GALAXY && !v {
        assert tr.ParentOk(t);
        SetChecked(parent[t], false, false);
        assert View() == tr;
        assert checked == After(tr, tr.parent[t], false, false, cs2);
      }
      assert checked == After(tr, t, v, p, cs0);
      assert CounterSlack() == mid;
      assert d == if t !in ex then (if v then 1 else -1) else 0;
      ghost var cs3 := checked;
      SlackStep(st0, stats, kind, cs0, cs3, ex, t, v);
      stats := stats.BumpDone(k, d);
      assert View() == tr && checked == cs3 && removed + newItem == ex;
    }

    /** The `children.forEach(child => child.setChecked(v, true))` loop. */
    method SetChildrenChecked(t: TaskId, v: bool)
      requires Valid() && t in kind
      modifies this`checked, this`stats
      ensures checked == AfterChildren(View(), t, |children[t]|, v, old(checked))
      ensures CounterSlack() == old(CounterSlack())
      decreases 9 - View().Level(t), 0
    {
      ghost var tr, s0, c0 := View(), CounterSlack(), checked;
      var cs := children[t];
      for i := 0 to |cs|
        invariant checked == AfterChildren(tr, t, i, v, c0)
        invariant CounterSlack() == s0
      {
        ChildLevel(tr, t, i);
        ghost var before := checked;
        SetChecked(cs[i], v, true);
        assert View() == tr;
        assert checked == After(tr, cs[i], v, true, before);
      }
    }

    /** `setClosed(v)`: closing a task closes its whole subtree; opening a
        task opens that task only. */
    method SetClosed(t: TaskId, v: bool)
      requires Valid() && t in kind
      modifies this`closed
      ensures closed == if v then old(closed) + Sub(View(), t) else old(closed) - {t}
      decreases 4 - View().Level(t)
    {
      if !v {
        closed := closed - {t};
        return;
      }
      ghost var tr := View();
      ghost var c0 := closed;
      closed := closed + {t};
      var cs := children[t];
      for i := 0 to |cs|
        invariant closed == c0 + {t} + Below(tr, t, i)
      {
        BelowStep(tr, t, i);
        ChildLevel(tr, t, i);
        ghost var before := closed;
        SetClosed(cs[i], true);
        assert View() == tr;
        assert closed == before + Sub(tr, cs[i]);
      }
      AllBelow(tr, t);
    }

    /** `propagateRemoved(v)`: the flag of the whole subtree becomes `v`. */
    method PropagateRemoved(t: TaskId, v: bool)
      requires Valid() && t in kind
      modifies this`removed
      ensures removed == Marked(old(removed), Sub(View(), t), v)
      decreases 4 - View().Level(t), 1
    {
      ghost var tr := View();
      ghost var r0 := removed;
      removed := if v then removed + {t} else removed - {t};
      var cs := children[t];
      for i := 0 to |cs|
        invariant removed == Marked(r0, {t} + Below(tr, t, i), v)
      {
        PropagateChild(t, i, v, r0);
      }
      AllBelow(tr, t);
    }

    /** One turn of the loop of `propagateRemoved`: the subtree of the
        `i`th child takes the flag too. */
    method PropagateChild(t: TaskId, i: nat, v: bool, ghost r0: set<TaskId>)
      requires Valid() && t in kind && i < |children[t]|
      requires removed == Marked(r0, {t} + Below(View(), t, i), v)
      modifies this`removed
      ensures removed == Marked(r0, {t} + Below(View(), t, i + 1), v)
      decreases 4 - View().Level(t), 0
    {
      ghost var tr := View();
      BelowStep(tr, t, i);
      ChildLevel(tr, t, i);
      PropagateRemoved(children[t][i], v);
      MarkedTwice(r0, {t} + Below(tr, t, i), Sub(tr, tr.children[t][i]), v);
    }

    /** Gives the task at each position `i` of `cs` from `lo` on the order
        `i + off`: the renumbering loops of `addChild` and `removeChild`. */
    method NumberFrom(cs: seq<TaskId>, lo: nat, off: int)
      requires Distinct(cs) && lo <= |cs|
      modifies this`order
      ensures NumberedFrom(old(order), order, cs, lo, off)
    {
      ghost var o0 := order;
      for i := lo to |cs|
        invariant order.Keys == o0.Keys + (set j | lo <= j < i :: cs[j])
        invariant forall j :: lo <= j < i ==> order[cs[j]] == j + off
        invariant forall x :: x in o0 && x !in cs[lo..i] ==> order[x] == o0[x]
      {
        forall j | lo <= j < i
          ensures cs[j] != cs[i]
        {
          DistinctAt(cs, j, i);
        }
        assert cs[lo..i + 1] == cs[lo..i] + [cs[i]];
        order := order[cs[i] := i + off];
      }
      assert cs[lo..|cs|] == cs[lo..];
    }

    /** `sortChildren()`: the children by non-decreasing order, equal orders
        keeping their places. */
    method SortChildren(t: TaskId)
      requires Valid() && t in kind && Keyed(children[t], order)
      modifies this`children
      ensures children == old(children)[t := SortByOrder(old(children[t]), order)]
      ensures Valid() && SortedBy(children[t], order)
      ensures multiset(children[t]) == multiset(old(children[t]))
    {
      var cs := SortByOrder(children[t], order);
      SortSorted(children[t], order);
      SamePerm(children[t], cs);
      ChildrenOk(View(), t);
      Relist(View(), t, cs);
      children := children[t := cs];
    }

    /** `addChild(item, sort)`: `item`, a detached task one level below `t`,
        becomes the last child of `t` (then the children are sorted when
        `sort`). An item without an order gets the next position; with one
        and `sort`, the children from that position on move one place up.
        An unchecked item unchecks `t` and its ancestors; the item's
        subtree takes the removed flag of `t`; and unless that flag is set
        the item's census is added to the counters. */
    method AddChild(t: TaskId, item: TaskId, sort: bool) returns (ok: bool)
      requires Valid() && t in kind && item in kind && item != root
      requires kind[item].Level() == kind[t].Level() + 1
      requires forall x :: x in children ==> item !in children[x]
      requires sort ==> Keyed(children[t], order)
      modifies this`order, this`parent, this`checked, this`stats, this`children, this`removed
      ensures ok == !(sort && item in old(order) && old(order[item]) < 0)
      ensures !ok ==> order == old(order) && parent == old(parent) && checked == old(checked)
      ensures !ok ==> stats == old(stats) && children == old(children) && removed == old(removed)
      ensures ok ==> Valid()
      ensures ok ==> parent == old(parent)[item := t]
      ensures ok ==> var cs0 := old(children[t]);
        if item !in old(order) then order == old(order)[item := |cs0|]
        else if sort && old(order[item]) < |cs0| then NumberedFrom(old(order), order, cs0, old(order[item]), 1)
        else order == old(order)
      ensures ok ==> children == old(children)[t := if sort then SortByOrder(old(children[t]) + [item], order)
                                                    else old(children[t]) + [item]]
      ensures ok ==> item in children[t] && (sort ==> SortedBy(children[t], order))
      ensures ok ==> checked == if item in old(checked) then old(checked) else After(View(), t, false, false, old(checked))
      ensures ok ==> removed == Marked(old(removed), Sub(View(), item), t in old(removed))
      ensures ok ==> var s1 := Resync(old(stats), kind, old(checked), checked, old(removed) + newItem);
        stats == if t in old(removed) then s1 else s1.Shift(Census(View(), checked, item), true)
    {
      if sort && item in order && order[item] < 0 {
        return false;
      }
      PlaceOrder(t, item, sort);
      Join(t, item, sort);
      ok := true;
    }

    /** Everything `addChild` does after the order step. */
    method Join(t: TaskId, item: TaskId, sort: bool)
      requires Valid() && t in kind && item in kind && item != root
      requires kind[item].Level() == kind[t].Level() + 1
      requires forall x :: x in children ==> item !in children[x]
      requires sort ==> Keyed(children[t], order) && item in order
      modifies this`parent, this`checked, this`stats, this`children, this`removed
      ensures Valid()
      ensures parent == old(parent)[item := t]
      ensures children == old(children)[t := if sort then SortByOrder(old(children[t]) + [item], order)
                                              else old(children[t]) + [item]]
      ensures item in children[t] && (sort ==> SortedBy(children[t], order))
      ensures checked == if item in old(checked) then old(checked) else After(View(), t, false, false, old(checked))
      ensures removed == Marked(old(removed), Sub(View(), item), t in old(removed))
      ensures var s1 := Resync(old(stats), kind, old(checked), checked, old(removed) + newItem);
        stats == if t in old(removed) then s1 else s1.Shift(Census(View(), checked, item), true)
    {
      ghost var removed0 := removed;
      Attach(t, item, sort);
      ghost var tr, checked1, stats1 := View(), checked, stats;
      assert removed == removed0;
      Settle(t, item);
      assert View() == tr && checked == checked1;
      assert stats == if t in removed0 then stats1 else stats1.Shift(Census(tr, checked1, item), true);
    }

    /** The order step of `addChild`: an item without an order gets the next
        position; with one and `sort`, the children from that position on
        move one place up. */
    method PlaceOrder(t: TaskId, item: TaskId, sort: bool)
      requires Valid() && t in kind && item !in children[t]
      requires sort && item in order ==> order[item] >= 0
      requires sort ==> Keyed(children[t], order)
      modifies this`order
      ensures item in order && (sort ==> Keyed(children[t], order))
      ensures var cs0 := children[t];
        if item !in old(order) then order == old(order)[item := |cs0|]
        else if sort && old(order[item]) < |cs0| then NumberedFrom(old(order), order, cs0, old(order[item]), 1)
        else order == old(order)
    {
      var cs := children[t];
      if item !in order {
        order := order[item := |cs|];
      } else if sort && order[item] < |cs| {
        NumberFrom(cs, order[item], 1);
        assert item !in cs[order[item]..];
      }
    }

    /** The linking steps of `addChild`: the parent link, the unchecking
        of `t` and its ancestors for an unchecked item, and the push (and
        sort) of the children. */
    method Attach(t: TaskId, item: TaskId, sort: bool)
      requires Valid() && t in kind && item in kind && item != root
      requires kind[item].Level() == kind[t].Level() + 1
      requires forall x :: x in children ==> item !in children[x]
      requires sort ==> Keyed(children[t], order) && item in order
      modifies this`parent, this`checked, this`stats, this`children
      ensures Valid() && parent == old(parent)[item := t]
      ensures children == old(children)[t := if sort then SortByOrder(old(children[t]) + [item], order)
                                              else old(children[t]) + [item]]
      ensures item in children[t] && (sort ==> SortedBy(children[t], order))
      ensures checked == if item in old(checked) then old(checked) else After(View(), t, false, false, old(checked))
      ensures stats == Resync(old(stats), kind, old(checked), checked, removed + newItem)
    {
      Link(t, item);
      Append(t, item, sort, old(checked));
    }

    /** The `item.parent = this` and the `setChecked(false, false)` of
        `addChild`. */
    method Link(t: TaskId, item: TaskId)
      requires Valid() && t in kind && item in kind && item != root
      requires kind[item].Level() == kind[t].Level() + 1
      requires forall x :: x in children ==> item !in children[x]
      modifies this`parent, this`checked, this`stats
      ensures Valid() && parent == old(parent)[item := t]
      ensures checked == if item in old(checked) then old(checked) else After(View(), t, false, false, old(checked))
      ensures stats == Resync(old(stats), kind, old(checked), checked, removed + newItem)
    {
      Reparent(View(), item, t);
      parent := parent[item := t];
      if item !in checked {
        SetChecked(t, false, false);
      }
      ResyncSlack(old(stats), stats, kind, old(checked), checked, removed + newItem);
    }

    /** The end of `addChild`: the item's subtree takes the removed flag of
        `t`, and the item's census is added unless that flag is set. */
    method Settle(t: TaskId, item: TaskId)
      requires Valid() && t in kind && item in kind && kind[item] != GALAXY
      modifies this`removed, this`stats
      ensures View() == old(View())
      ensures removed == Marked(old(removed), Sub(View(), item), t in old(removed))
      ensures stats == if t in old(removed) then old(stats) else old(stats).Shift(Census(View(), checked, item), true)
    {
      var v := t in removed;
      PropagateRemoved(item, v);
      assert item in Sub(View(), item);
      if item !in removed {
        UpdateGalaxyStats(item, true);
      }
    }

    /** The `children.push(item)` and the optional sort of `addChild`, for
        an item already linked to `t`; neither changes how unchecking `t`
        climbs. */
    method Append(t: TaskId, item: TaskId, sort: bool, ghost cs0: set<TaskId>)
      requires Valid() && t in kind && item in kind && item != root && item !in children[t]
      requires item in parent && parent[item] == t && kind[item].Level() == kind[t].Level() + 1
      requires sort ==> Keyed(children[t], order) && item in order
      modifies this`children
      ensures Valid()
      ensures children == old(children)[t := if sort then SortByOrder(old(children[t]) + [item], order)
                                              else old(children[t]) + [item]]
      ensures item in children[t] && (sort ==> SortedBy(children[t], order))
      ensures After(View(), t, false, false, cs0) == After(old(View()), t, false, false, cs0)
    {
      ghost var tr := View();
      ghost var m0, cs := children, children[t] + [item];
      Push(t, item);
      assert children == m0[t := cs];
      if sort {
        SortChildren(t);
        UpdateTwice(m0, t, cs, SortByOrder(cs, order));
        SamePerm(cs, children[t]);
      }
      UpOnly(tr, View(), t, cs0);
    }

    /** The `children.push(item)` of `addChild`. */
    method Push(t: TaskId, item: TaskId)
      requires Valid() && t in kind && item in kind && item != root && item !in children[t]
      requires item in parent && parent[item] == t && kind[item].Level() == kind[t].Level() + 1
      modifies this`children
      ensures Valid() && children == old(children)[t := old(children[t]) + [item]]
    {
      var cs := children[t];
      ChildrenOk(View(), t);
      DistinctSnoc(cs, item);
      assert View().ParentOk(item);
      Relist(View(), t, cs + [item]);
      children := children[t := cs + [item]];
    }

    /** `removeChild(item, sort)`: the entry at `findIndex` of `item` is
        spliced out of the children of `t` (the last one when `item` is not
        a child), the remaining children are renumbered from 0 when `sort`,
        the item's census leaves the counters unless it is removed, and its
        subtree is marked removed. The item keeps its parent link. */
    method RemoveChild(t: TaskId, item: TaskId, sort: bool)
      requires Valid() && t in kind && item in kind
      modifies this`children, this`order, this`stats, this`removed
      ensures Valid()
      ensures children == old(children)[t := SpliceOne(old(children[t]), IndexOf(old(children[t]), item))]
      ensures item in old(children[t]) ==> forall y :: y in children[t] <==> y in old(children[t]) && y != item
      ensures item !in old(children[t]) && old(children[t]) != [] ==>
        children[t] == old(children[t])[..|old(children[t])| - 1]
      ensures if sort then NumberedFrom(old(order), order, children[t], 0, 0) else order == old(order)
      ensures stats == if item in old(removed) || kind[item] == GALAXY then old(stats)
                       else old(stats).Shift(Census(View(), checked, item), false)
      ensures removed == old(removed) + Sub(View(), item)
    {
      Unlist(t, item, sort);
      Discount(item);
    }

    /** The splice and the renumbering of `removeChild`. */
    method Unlist(t: TaskId, item: TaskId, sort: bool)
      requires Valid() && t in kind && item in kind
      modifies this`children, this`order
      ensures Valid()
      ensures children == old(children)[t := SpliceOne(old(children[t]), IndexOf(old(children[t]), item))]
      ensures item in old(children[t]) ==> forall y :: y in children[t] <==> y in old(children[t]) && y != item
      ensures item !in old(children[t]) && old(children[t]) != [] ==>
        children[t] == old(children[t])[..|old(children[t])| - 1]
      ensures if sort then NumberedFrom(old(order), order, children[t], 0, 0) else order == old(order)
    {
      var cs := children[t];
      var idx := IndexOf(cs, item);
      var rest := SpliceOne(cs, idx);
      ChildrenOk(View(), t);
      SpliceDistinct(cs, idx);
      if item in cs {
        SpliceFound(cs, item);
      }
      Relist(View(), t, rest);
      children := children[t := rest];
      if sort {
        NumberFrom(rest, 0, 0);
      }
    }

    /** The end of `removeChild`: the item's census leaves the counters
        unless it is already removed, and its subtree is marked removed. */
    method Discount(item: TaskId)
      requires Valid() && item in kind
      modifies this`stats, this`removed
      ensures stats == if item in old(removed) || kind[item] == GALAXY then old(stats)
                       else old(stats).Shift(Census(View(), checked, item), false)
      ensures removed == old(removed) + Sub(View(), item)
    {
      UpdateGalaxyStats(item, false);
      PropagateRemoved(item, true);
    }

    /** `getFlattenedChildren()`: every descendant, each child followed by
        its own descendants. */
    method GetFlattenedChildren(t: TaskId) returns (r: seq<TaskId>)
      requires Valid() && t in kind
      ensures r == Flatten(View(), t)
      decreases 4 - View().Level(t)
    {
      ghost var tr := View();
      var cs := children[t];
      r := [];
      for i := 0 to |cs|
        invariant r == FlatPrefix(tr, t, i)
      {
        ChildLevel(tr, t, i);
        var below := GetFlattenedChildren(cs[i]);
        r := r + [cs[i]] + below;
      }
    }

    /** `getNbrChildren(openOnly)`: the number of descendants, or 0 for a
        closed task when only open tasks are wanted; the descendants are
        counted whether closed or not. */
    method GetNbrChildren(t: TaskId, openOnly: bool) returns (n: nat)
      requires Valid() && t in kind
      ensures n == if openOnly && t in closed then 0 else |Flatten(View(), t)|
      decreases 4 - View().Level(t)
    {
      if openOnly && t in closed {
        return 0;
      }
      ghost var tr := View();
      var cs := children[t];
      n := |cs|;
      for i := 0 to |cs|
        invariant n == |cs| - i + |FlatPrefix(tr, t, i)|
      {
        ChildLevel(tr, t, i);
        var m := GetNbrChildren(cs[i], false);
        n := n + m;
      }
    }
  
    /** `getNbrDirectChildrenChecked()`: how many children are checked. */
    method GetNbrDirectChildrenChecked(t: TaskId) returns (n: nat)
      requires Valid() && t in kind
      ensures n == CountIn(children[t], checked)
    {
      var cs := children[t];
      n := 0;
      for i := 0 to |cs|
        invariant n == CountIn(cs[..i], checked)
      {
        assert cs[..i + 1][..i] == cs[..i];
        if cs[i] in checked {
          n := n + 1;
        }
      }
      assert cs[..|cs|] == cs;
    }

    /** `getDifficulty()`, for every task kind. */
    method GetDifficulty(t: TaskId) returns (d: int)
      requires Valid() && t in kind
      ensures d == Difficulty(View(), difficulty, t)
      decreases 4 - View().Level(t)
    {
      ghost var tr := View();
      match kind[t]
      case MOON =>
        d := 1;
      case PLANET =>
        d := difficulty[t];
      case _ =>
        var cs := children[t];
        if |cs| == 0 {
          return 1;
        }
        var dif := 0;
        for i := 0 to |cs|
          invariant dif == DifficultySum(tr, difficulty, t, i)
        {
          ChildLevel(tr, t, i);
          var c := GetDifficulty(cs[i]);
          dif := dif + c;
        }
        d := RoundDiv(dif, |cs|);
    }

    /** `updateGalaxyStats(galaxy, item, adding)`: unless the item is
        removed, its census (the item and its descendants down to the
        planets) is added to or taken from the counters. A galaxy or a moon
        changes nothing. */
    method UpdateGalaxyStats(item: TaskId, adding: bool)
      requires Valid() && item in kind
      modifies this`stats
      ensures stats == if item in removed || kind[item] == GALAXY then old(stats)
                       else old(stats).Shift(Census(View(), checked, item), adding)
    {
      if item in removed {
        return;
      }
      match kind[item]
      case SECTOR =>
        AddSectorStats(item, adding);
      case SYSTEM =>
        AddSystemStats(item, adding);
      case PLANET =>
        stats := stats.Shift(Unit(PLANET, item in checked), adding);
      case GALAXY =>
      case MOON =>
    }

    /** A sector's share of `updateGalaxyStats`: the sector, then each of
        its systems. */
    method AddSectorStats(s: TaskId, adding: bool)
      requires Valid() && s in kind && kind[s] == SECTOR
      modifies this`stats
      ensures stats == old(stats).Shift(Census(View(), checked, s), adding)
    {
      ghost var tr := View();
      stats := stats.Shift(Unit(SECTOR, s in checked), adding);
      ghost var mid := stats;
      var cs := children[s];
      for i := 0 to |cs|
        invariant stats == mid.Shift(CensusSum(tr, checked, s, i), adding)
      {
        CensusSumStep(tr, checked, s, i, mid, adding);
        ChildLevel(tr, s, i);
        AddSystemStats(cs[i], adding);
        assert View() == tr;
      }
      CensusShift(tr, checked, s, old(stats), adding);
    }

    /** A system's share of `updateGalaxyStats`: the system, then each of
        its planets. */
    method AddSystemStats(s: TaskId, adding: bool)
      requires Valid() && s in kind && kind[s] == SYSTEM
      modifies this`stats
      ensures stats == old(stats).Shift(Census(View(), checked, s), adding)
    {
      ghost var tr := View();
      stats := stats.Shift(Unit(SYSTEM, s in checked), adding);
      ghost var mid := stats;
      var cs := children[s];
      for i := 0 to |cs|
        invariant stats == mid.Shift(CensusSum(tr, checked, s, i), adding)
      {
        CensusSumStep(tr, checked, s, i, mid, adding);
        ChildLevel(tr, s, i);
        var p := cs[i];
        assert Census(tr, checked, p) == Unit(PLANET, p in checked);
        stats := stats.Shift(Unit(PLANET, p in checked), adding);
      }
      CensusShift(tr, checked, s, old(stats), adding);
    }

    /** `backupChecked(check)`: a step whose rollback restores the checked
        flag of every task of the subtree and whose rollforward sets them
        all to `check`, both in post-order. */
    method BackupChecked(t: TaskId, check: bool) returns (step: BackupStep)
      requires Valid() && t in kind
      ensures fresh(step)
      ensures step.rollback == CheckedActions(PostOrder(View(), t), checked, None)
      ensures step.rollforward == CheckedActions(PostOrder(View(), t), checked, Some(check))
      decreases 4 - View().Level(t)
    {
      ghost var tr := View();
      step := new BackupStep([], []);
      var cs := children[t];
      for i := 0 to |cs|
        invariant fresh(step)
        invariant step.rollback == CheckedActions(PostPrefix(tr, t, i), checked, None)
        invariant step.rollforward == CheckedActions(PostPrefix(tr, t, i), checked, Some(check))
      {
        ChildLevel(tr, t, i);
        var childBkp := BackupChecked(cs[i], check);
        step.AddAllRollback(childBkp.rollback);
        step.AddAllRollforward(childBkp.rollforward);
        CheckedActionsAppend(PostPrefix(tr, t, i), PostOrder(tr, cs[i]), checked, None);
        CheckedActionsAppend(PostPrefix(tr, t, i), PostOrder(tr, cs[i]), checked, Some(check));
      }
      step.AddRollback(Action(t, Flag(t in checked), CHECKED));
      step.AddRollforward(Action(t, Flag(check), CHECKED));
      CheckedActionsAppend(PostPrefix(tr, t, |cs|), [t], checked, None);
      CheckedActionsAppend(PostPrefix(tr, t, |cs|), [t], checked, Some(check));
    }

    /** `backupAllSystemsBeforeCoordsChange(galaxy)`: the position of every
        system, sector by sector. `coords!.clone()` throws on the first
        system without a position; `ok` is false exactly then, and no
        actions come back. */
    method BackupAllSystemsBeforeCoordsChange() returns (ok: bool, r: seq<Action>)
      requires Valid()
      ensures ok <==> forall x :: x in Systems(View()) ==> x in coords
      ensures ok ==> r == CoordsActions(Systems(View()), coords)
      ensures !ok ==> r == []
    {
      ghost var tr := View();
      var sectors := children[root];
      r := [];
      for i := 0 to |sectors|
        invariant forall x :: x in SystemsPrefix(tr, i) ==> x in coords
        invariant r == CoordsActions(SystemsPrefix(tr, i), coords)
      {
        var found;
        found, r := SectorCoords(tr, i, r);
        if !found {
          SystemsPrefixGrows(tr, i + 1, |sectors|);
          ghost var x :| x in SystemsPrefix(tr, i + 1) && x !in coords;
          assert x in Systems(tr);
          return false, [];
        }
      }
      ok := true;
    }

    /** The inner `forEach` of backupAllSystemsBeforeCoordsChange: the
        actions of sector `i`'s systems appended to those of the sectors
        before it, or `false` at a system without a position. */
    method SectorCoords(ghost tr: Tree, i: nat, r0: seq<Action>) returns (ok: bool, r: seq<Action>)
      requires Valid() && tr == View() && i < |children[root]|
      requires forall x :: x in SystemsPrefix(tr, i) ==> x in coords
      requires r0 == CoordsActions(SystemsPrefix(tr, i), coords)
      ensures ok <==> forall x :: x in SystemsPrefix(tr, i + 1) ==> x in coords
      ensures ok ==> r == CoordsActions(SystemsPrefix(tr, i + 1), coords)
    {
      ChildLevel(tr, root, i);
      var systems := children[children[root][i]];
      assert SystemsPrefix(tr, i + 1) == SystemsPrefix(tr, i) + systems;
      r := r0;
      for j := 0 to |systems|
        invariant forall x :: x in SystemsPrefix(tr, i) + systems[..j] ==> x in coords
        invariant r == CoordsActions(SystemsPrefix(tr, i) + systems[..j], coords)
      {
        assert (SystemsPrefix(tr, i) + systems[..j + 1]) == (SystemsPrefix(tr, i) + systems[..j]) + [systems[j]];
        if systems[j] !in coords {
          assert systems[j] in SystemsPrefix(tr, i + 1);
          return false, r;
        }
        r := r + [Action(systems[j], Point(coords[systems[j]]), COORDINATES)];
      }
      assert systems[..|systems|] == systems;
      ok := true;
    }
  }

  /** `getTypeText()`: the kind's name as the interface shows it. */
  function TypeText(k: TaskType): string
  {
    match k
    case GALAXY => "galaxy"
    case SECTOR => "sector"
    case SYSTEM => "system"
    case PLANET => "planet"
    case MOON => "moon"
  }

  /** Different kinds have different names. */
  lemma TypeTextInjective(a: TaskType, b: TaskType)
    ensures TypeText(a) == TypeText(b) <==> a == b
  {
  }
}
