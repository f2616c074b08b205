/** The directed edge-fragment maps of a sector (`points`, `userPoints`,
    `borderPoints`). They behave like a JavaScript Map keyed by point
    identity: `set` on an existing key overwrites the value and keeps the
    key's position, `delete` removes it, and iteration follows insertion
    order, which decides where each ring starts. */
module Fragments {
  import opened Common

  /** No element occurs twice (stated element by element, which keeps
      well-formedness facts about maps cheap to carry around). */
  ghost predicate NoDup<T>(s: seq<T>)
  {
    |s| == 0 || (s[0] !in s[1..] && NoDup(s[1..]))
  }

  lemma {:induction false} NoDupAppend<T>(s: seq<T>, a: T)
    requires NoDup(s) && a !in s
    ensures NoDup(s + [a])
  {
    if |s| > 0 {
      assert (s + [a])[1..] == s[1..] + [a];
      NoDupAppend(s[1..], a);
    }
  }

  /** `s` without `a`, in the same order. */
  function Without<T(==,!new)>(s: seq<T>, a: T): (r: seq<T>)
    ensures forall x :: x in r <==> x in s && x != a
    ensures NoDup(s) ==> NoDup(r)
    ensures NoDup(s) && a in s ==> |r| == |s| - 1
    ensures a !in s ==> r == s
  {
    if s == [] then []
    else if s[0] == a then Without(s[1..], a)
    else
      var rest := Without(s[1..], a);
      assert ([s[0]] + rest)[1..] == rest;
      [s[0]] + rest
  }

  /** A fragment map: the links `from -> to`, and their keys in insertion order. */
  datatype EdgeMap = EdgeMap(keys: seq<Pt>, links: map<Pt, Pt>) {

    ghost predicate Wf()
    {
      && NoDup(keys)
      && forall k :: k in links <==> k in keys
    }

    function Get(a: Pt): (r: Option<Pt>)
      ensures r.Some? <==> a in links
      ensures r.Some? ==> r.value == links[a]
    {
      if a in links then Some(links[a]) else None
    }

    /** Map.prototype.set */
    function Set(a: Pt, b: Pt): (r: EdgeMap)
      requires Wf()
      ensures r.Wf()
      ensures r.links == links[a := b]
      ensures a in links ==> r.keys == keys
      ensures a !in links ==> r.keys == keys + [a]
    {
      if a in links then EdgeMap(keys, links[a := b])
      else
        NoDupAppend(keys, a);
        EdgeMap(keys + [a], links[a := b])
    }

    /** Map.prototype.delete; deleting a missing key changes nothing. */
    function Delete(a: Pt): (r: EdgeMap)
      requires Wf()
      ensures r.Wf()
      ensures r.links == links - {a}
      ensures r.keys == Without(keys, a)
      ensures a in links ==> |r.links| == |links| - 1
      ensures a !in links ==> r == this
    {
      EdgeMap(Without(keys, a), links - {a})
    }
  }

  const Empty := EdgeMap([], map[])

  /** In a well-formed map the insertion-order list holds each key once. */
  lemma {:induction false} SizeIsKeyCount(m: EdgeMap)
    requires m.Wf()
    ensures |m.links| == |m.keys|
    decreases |m.keys|
  {
    if m.keys != [] {
      var k := m.keys[0];
      var rest := m.Delete(k);
      assert rest.keys == m.keys[1..] by {
        assert Without(m.keys[1..], k) == m.keys[1..];
      }
      SizeIsKeyCount(rest);
    } else {
      assert m.links.Keys == {};
    }
  }

  /** A well-formed map: every map a sector holds is one. */
  type ValidMap = m: EdgeMap | m.Wf() witness EdgeMap([], map[])

  /** A sector's fragment map, updated in place. */
  class FragmentMap {
    var contents: ValidMap

    constructor ()
      ensures contents == Empty
    {
      contents := Empty;
    }

    function Size(): (n: nat)
      reads this
      ensures n == |contents.keys|
    {
      SizeIsKeyCount(contents);
      |contents.links|
    }

    method Set(a: Pt, b: Pt)
      modifies this
      ensures contents == old(contents).Set(a, b)
    {
      contents := contents.Set(a, b);
    }

    method Delete(a: Pt)
      modifies this
      ensures contents == old(contents).Delete(a)
    {
      contents := contents.Delete(a);
    }

    method Clear()
      modifies this
      ensures contents == Empty
    {
      contents := Empty;
    }
  }
}
