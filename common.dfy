/** Types shared by the territory engine, the task tree and the undo log. */
module Common {

  datatype Option<T> = None | Some(value: T)

  /** No two positions of `s` hold the same element. */
  ghost predicate Distinct<T>(s: seq<T>)
  {
    forall i, j :: 0 <= i < j < |s| ==> Differ(s, i, j)
  }

  /** The first position of `es` whose key is `k`, or -1 when there is none:
      the lookup of the keyed lists that stand for JavaScript maps. */
  function FindBy<E, K(==)>(es: seq<E>, key: E -> K, k: K): (i: int)
    ensures -1 <= i < |es|
    ensures i >= 0 ==> key(es[i]) == k
    ensures i < 0 ==> forall n :: 0 <= n < |es| ==> key(es[n]) != k
  {
    if es == [] then -1
    else if key(es[0]) == k then 0
    else
      var j := FindBy(es[1..], key, k);
      if j < 0 then -1 else j + 1
  }

  /** A second update of the same key replaces the first. Kept as a lemma
      so that the map equality is proved apart from a caller's heap. */
  lemma UpdateTwice<K, V>(m: map<K, V>, k: K, a: V, b: V)
    ensures m[k := a][k := b] == m[k := b]
  {
  }

  /** Positions `i` and `j` of `s` hold different elements. */
  ghost predicate Differ<T>(s: seq<T>, i: int, j: int)
    requires 0 <= i < |s| && 0 <= j < |s|
  {
    s[i] != s[j]
  }

  /** In a sequence without repeats, an element sits at one position only. */
  lemma DistinctAt<T>(s: seq<T>, i: int, j: int)
    requires Distinct(s) && 0 <= i < |s| && 0 <= j < |s|
    ensures i != j ==> s[i] != s[j]
  {
    if i < j {
      assert Differ(s, i, j);
    } else if j < i {
      assert Differ(s, j, i);
    }
  }

  /** A new element at the end keeps the elements distinct. */
  lemma DistinctSnoc<T>(s: seq<T>, x: T)
    requires Distinct(s) && x !in s
    ensures Distinct(s + [x])
  {
    var t := s + [x];
    forall i, j | 0 <= i < j < |t| ensures Differ(t, i, j) {
      if j < |s| {
        assert Differ(s, i, j);
      } else {
        assert t[i] == s[i];
      }
    }
  }

  /** A prefix of distinct elements is distinct. */
  lemma DistinctPrefix<T>(s: seq<T>, n: nat)
    requires Distinct(s) && n <= |s|
    ensures Distinct(s[..n])
  {
    var t := s[..n];
    forall i, j | 0 <= i < j < |t| ensures Differ(t, i, j) {
      assert Differ(s, i, j);
    }
  }

  /** Two sequences without repeats and without a common element make a
      sequence without repeats. */
  lemma DistinctConcat<T>(a: seq<T>, b: seq<T>)
    requires Distinct(a) && Distinct(b) && forall x :: x in a ==> x !in b
    ensures Distinct(a + b)
  {
    var t := a + b;
    forall i, j | 0 <= i < j < |t| ensures Differ(t, i, j) {
      if j < |a| {
        assert Differ(a, i, j);
      } else if i >= |a| {
        assert Differ(b, i - |a|, j - |a|);
      } else {
        assert t[i] in a && t[j] in b;
      }
    }
  }

  /** The three owners of a territory fragment. The numeric values are used as
      indices into a three-slot state array; ENNEMY = 0, USER = 1 and
      TERRITORY = 2 is an assumption about the enum, which is not shown. */
  datatype Owner = ENNEMY | USER | TERRITORY {
    function Index(): (i: nat)
      ensures i < 3
      ensures i == 0 <==> this == ENNEMY
      ensures i == 1 <==> this == USER
    {
      match this
      case ENNEMY => 0
      case USER => 1
      case TERRITORY => 2
    }
  }

  /** A plain coordinate value (bounding-box corners, system positions). */
  datatype Coord = Coord(x: real, y: real)

  /** A point of the contour layer. The source keys its fragment maps by
      object identity; here every allocated point carries a fresh `id`, so
      two points with equal coordinates but different ids stay distinct. */
  datatype Pt = Pt(id: nat, x: real, y: real)

  /** A task, by identity: the task tree is an arena indexed by these. */
  type TaskId = nat

  /** Task kinds, with their numeric enum values as levels. */
  datatype TaskType = GALAXY | SECTOR | SYSTEM | PLANET | MOON {
    function Level(): (l: nat)
      ensures l <= 4
      ensures l == 0 <==> this == GALAXY
      ensures l == 4 <==> this == MOON
    {
      match this
      case GALAXY => 0
      case SECTOR => 1
      case SYSTEM => 2
      case PLANET => 3
      case MOON => 4
    }
  }

  /** Sector colours that the model needs by name. */
  datatype TaskColor = VIOLET | GREEN | BLUE | RED | ORANGE | YELLOW | BROWN
}
