/** The marching-squares case table of interpretState: for each 4-bit corner
    state (top left 8, top right 4, bottom right 2, bottom left 1) the
    directed fragments it emits between the edges of the square, and the
    order in which it fills the edge points. */
module Cases {

  /** The edges of a square. */
  datatype Edge = Left | Bottom | Right | Top

  /** One emitted fragment: the edge points `first` then `second` are made
      available, then the link `from -> to` is added. */
  datatype Fragment = Fragment(first: Edge, second: Edge, from: Edge, to: Edge)

  /** Corner values as interpretState's callers add them. */
  const TopLeftBit := 8
  const TopRightBit := 4
  const BottomRightBit := 2
  const BottomLeftBit := 1

  /** The fragments interpretState emits for `state`; states 0, 15 and any
      other value fall through the switch and emit nothing. */
  function Table(state: int): (fs: seq<Fragment>)
    ensures |fs| <= 2
  {
    match state
    case 1 => [Fragment(Left, Bottom, Bottom, Left)]
    case 2 => [Fragment(Bottom, Right, Right, Bottom)]
    case 3 => [Fragment(Left, Right, Right, Left)]
    case 4 => [Fragment(Right, Top, Top, Right)]
    case 5 => [Fragment(Right, Top, Top, Right), Fragment(Left, Bottom, Bottom, Left)]
    case 6 => [Fragment(Bottom, Top, Top, Bottom)]
    case 7 => [Fragment(Left, Top, Top, Left)]
    case 8 => [Fragment(Top, Left, Left, Top)]
    case 9 => [Fragment(Top, Bottom, Bottom, Top)]
    case 10 => [Fragment(Top, Left, Left, Top), Fragment(Bottom, Right, Right, Bottom)]
    case 11 => [Fragment(Top, Right, Right, Top)]
    case 12 => [Fragment(Right, Left, Left, Right)]
    case 13 => [Fragment(Right, Bottom, Bottom, Right)]
    case 14 => [Fragment(Bottom, Left, Left, Bottom)]
    case _ => []
  }

  /** Bit `v` (one of 8, 4, 2, 1) is set in `k`. */
  predicate Bit(k: int, v: int)
    requires v > 0
  {
    (k / v) % 2 == 1
  }

  /** The two corner values at the ends of edge `e`. */
  function Ends(e: Edge): (int, int)
  {
    match e
    case Left => (TopLeftBit, BottomLeftBit)
    case Bottom => (BottomLeftBit, BottomRightBit)
    case Right => (TopRightBit, BottomRightBit)
    case Top => (TopLeftBit, TopRightBit)
  }

  /** The contour crosses edge `e` when exactly one of its corners is set. */
  predicate Crossed(k: int, e: Edge)
  {
    Bit(k, Ends(e).0) != Bit(k, Ends(e).1)
  }

  /** Every fragment fills exactly the two edge points it links, and links
      two different edges. */
  predicate WellFormed(f: Fragment)
  {
    f.first != f.second && f.from != f.to && {f.first, f.second} == {f.from, f.to}
  }

  /** The edges the fragments of `fs` touch. */
  function Touched(fs: seq<Fragment>): set<Edge>
  {
    if fs == [] then {} else {fs[0].from, fs[0].to} + Touched(fs[1..])
  }

  lemma TableWellFormed(k: int)
    ensures forall f :: f in Table(k) ==> WellFormed(f)
  {
  }

  /** States 0 (no active corner) and 15 (all active) emit nothing. */
  lemma EmptyStates()
    ensures Table(0) == [] && Table(15) == []
  {
  }

  /** The saddle states emit the fragments of their two single-corner
      cases: 5 is 4 then 1, 10 is 8 then 2. */
  lemma Saddles()
    ensures Table(5) == Table(TopRightBit) + Table(BottomLeftBit)
    ensures Table(10) == Table(TopLeftBit) + Table(BottomRightBit)
  {
  }

  /** Swapping active and inactive corners reverses the fragment: every
      state other than 0, 5, 10 and 15 emits one fragment, and state
      `15 - k` emits it backwards. */
  lemma Complement(k: int)
    requires 0 < k < 15 && k != 5 && k != 10
    ensures |Table(k)| == 1 && |Table(15 - k)| == 1
    ensures Table(15 - k)[0].from == Table(k)[0].to && Table(15 - k)[0].to == Table(k)[0].from
  {
  }

  /** The table agrees with the geometry: in a state other than the two
      saddles, the fragments touch exactly the edges the contour crosses,
      and in a saddle every edge is crossed and touched. */
  lemma TouchesCrossedEdges(k: int)
    requires 0 <= k < 16
    ensures forall e :: e in Touched(Table(k)) <==> Crossed(k, e)
  {
    if k < 8 {
      TouchesLow(k);
    } else {
      TouchesHigh(k);
    }
  }

  /** The table has at most two fragments, so `Touched` unfolds twice. */
  lemma TouchedUnfold(k: int)
    requires 0 <= k < 16
    ensures |Table(k)| <= 2
    ensures |Table(k)| == 2 ==> Table(k)[1..][1..] == []
    ensures |Table(k)| == 1 ==> Table(k)[1..] == []
  {
    var t := Table(k);
    if |t| == 2 {
      assert t[1..][1..] == [];
    } else if |t| == 1 {
      assert t[1..] == [];
    }
  }

  lemma TouchesLow(k: int)
    requires 0 <= k < 8
    ensures forall e :: e in Touched(Table(k)) <==> Crossed(k, e)
  {
    TouchedUnfold(k);
    assert k == 0 || k == 1 || k == 2 || k == 3 || k == 4 || k == 5 || k == 6 || k == 7;
  }

  lemma TouchesHigh(k: int)
    requires 8 <= k < 16
    ensures forall e :: e in Touched(Table(k)) <==> Crossed(k, e)
  {
    TouchedUnfold(k);
    assert k == 8 || k == 9 || k == 10 || k == 11 || k == 12 || k == 13 || k == 14 || k == 15;
  }
}
