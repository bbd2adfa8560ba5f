/** Sequence helpers for collections kept in their natural (insertion) order. */
module Collections {
  import opened Wrappers

  /** Where the first element satisfying `p` sits, as a query with no sort returns its first match. */
  function FirstIndex<T>(xs: seq<T>, p: T -> bool): (r: Option<nat>)
    ensures r.Some? ==> r.value < |xs| && p(xs[r.value]) && forall j :: 0 <= j < r.value ==> !p(xs[j])
    ensures r.None? ==> forall j :: 0 <= j < |xs| ==> !p(xs[j])
  {
    if xs == [] then None
    else if p(xs[0]) then Some(0)
    else match FirstIndex(xs[1..], p)
      case None => None
      case Some(i) => Some(i + 1)
  }

  /** The elements satisfying `p`, in their original order. */
  function Filter<T>(xs: seq<T>, p: T -> bool): (r: seq<T>)
    ensures |r| <= |xs|
    ensures forall i :: 0 <= i < |r| ==> p(r[i])
    ensures forall i :: 0 <= i < |xs| && p(xs[i]) ==> xs[i] in r
    ensures forall x :: x in r ==> x in xs
  {
    if xs == [] then []
    else if p(xs[0]) then [xs[0]] + Filter(xs[1..], p)
    else Filter(xs[1..], p)
  }

  /** Filtering keeps the order: filtering a concatenation concatenates the filtered parts. */
  lemma {:induction false} FilterConcat<T>(a: seq<T>, b: seq<T>, p: T -> bool)
    ensures Filter(a + b, p) == Filter(a, p) + Filter(b, p)
    decreases |a|
  {
    if a != [] {
      assert (a + b)[0] == a[0] && (a + b)[1..] == a[1..] + b;
      FilterConcat(a[1..], b, p);
    } else {
      assert a + b == b;
    }
  }

  /** A sequence whose every element satisfies `p` is kept whole. */
  lemma {:induction false} FilterAll<T>(xs: seq<T>, p: T -> bool)
    requires forall i :: 0 <= i < |xs| ==> p(xs[i])
    ensures Filter(xs, p) == xs
    decreases |xs|
  {
    if xs != [] {
      FilterAll(xs[1..], p);
    }
  }

  /** The positions of `xs` whose element satisfies `p`. */
  function Positions<T>(xs: seq<T>, p: T -> bool): set<nat> {
    set i: nat | i < |xs| && p(xs[i])
  }

  /** The satisfying positions of a sequence are those of all but its last element, plus the last one if it satisfies `p`. */
  lemma PositionsSnoc<T>(xs: seq<T>, p: T -> bool)
    requires xs != []
    ensures var n := |xs| - 1;
      && n !in Positions(xs[..n], p)
      && Positions(xs, p) == Positions(xs[..n], p) + (if p(xs[n]) then {n} else {})
  {
    var n := |xs| - 1;
    forall i: nat | i < n
      ensures (i in Positions(xs, p)) == (i in Positions(xs[..n], p))
    {
      assert xs[i] == xs[..n][i];
    }
  }

  /** Filtering keeps one element per satisfying position: its length is the number of those positions. */
  lemma {:induction false} FilterCount<T>(xs: seq<T>, p: T -> bool)
    ensures |Filter(xs, p)| == |Positions(xs, p)|
    decreases |xs|
  {
    if xs != [] {
      var n := |xs| - 1;
      var init := xs[..n];
      assert xs == init + [xs[n]];
      FilterCount(init, p);
      FilterConcat(init, [xs[n]], p);
      assert Filter([xs[n]], p) == if p(xs[n]) then [xs[n]] else [] by {
        assert [xs[n]][1..] == [];
      }
      PositionsSnoc(xs, p);
    }
  }

  function Abs(x: int): nat { if x < 0 then -x else x }

  function Min(a: int, b: int): int { if a <= b then a else b }

  /**
   * `cursor.skip(skip).limit(limit)`: drop the first `skip` elements, then
   * keep at most `|limit|` of the rest; a limit of 0 keeps them all.
   */
  function Page<T>(xs: seq<T>, skip: nat, limit: int): (r: seq<T>)
    ensures |r| == Min(if skip <= |xs| then |xs| - skip else 0, if limit == 0 then |xs| else Abs(limit))
    ensures forall i :: 0 <= i < |r| ==> r[i] == xs[skip + i]
  {
    var rest := if skip <= |xs| then xs[skip..] else [];
    if limit == 0 || |rest| <= Abs(limit) then rest else rest[..Abs(limit)]
  }

  /** The elements of `xs` passed through `f`, position by position (a list comprehension). */
  function MapSeq<T, U>(xs: seq<T>, f: T -> U): (r: seq<U>)
    ensures |r| == |xs| && forall i :: 0 <= i < |xs| ==> r[i] == f(xs[i])
  {
    seq(|xs|, i requires 0 <= i < |xs| => f(xs[i]))
  }
}
