/** Sequence vocabulary shared by the models. Every recursion is on the last
    element, so that a loop walking a list from the front keeps `F(q[..i])`. */
module Common {

  datatype Option<+T> = None | Some(value: T)

  /** The sublist of q that satisfies p, in order. */
  function Filter<T(!new)>(q: seq<T>, p: T -> bool): (r: seq<T>)
    ensures forall x :: x in r <==> x in q && p(x)
    ensures |r| <= |q|
  {
    if q == [] then []
    else
      var x := q[|q| - 1];
      assert q == q[..|q| - 1] + [x];
      Filter(q[..|q| - 1], p) + if p(x) then [x] else []
  }

  /** Position of the last element satisfying p, or -1. */
  function LastIndex<T>(q: seq<T>, p: T -> bool): (r: int)
    ensures -1 <= r < |q|
    ensures 0 <= r ==> p(q[r])
    ensures forall k | r < k < |q| :: !p(q[k])
  {
    if q == [] then -1
    else if p(q[|q| - 1]) then |q| - 1
    else LastIndex(q[..|q| - 1], p)
  }

  /** Position of the first element satisfying p, or |q|. */
  function FirstIndex<T>(q: seq<T>, p: T -> bool): (r: nat)
    ensures r <= |q|
    ensures r < |q| ==> p(q[r])
    ensures forall k | 0 <= k < r :: !p(q[k])
  {
    if q == [] then 0
    else
      var r := FirstIndex(q[..|q| - 1], p);
      if r < |q| - 1 || p(q[|q| - 1]) then r else |q|
  }

  /** q without its element at i. */
  function Without<T>(q: seq<T>, i: nat): seq<T>
    requires i < |q|
  {
    q[..i] + q[i + 1..]
  }

  /** R holds from every element to every later one. */
  ghost predicate Pairwise<T(!new)>(q: seq<T>, R: (T, T) -> bool) {
    forall i, j | 0 <= i < j < |q| :: R(q[i], q[j])
  }

  lemma {:induction false} FilterStep<T(!new)>(q: seq<T>, p: T -> bool, i: nat)
    requires i < |q|
    ensures Filter(q[..i + 1], p) == Filter(q[..i], p) + if p(q[i]) then [q[i]] else []
  {
    assert q[..i + 1][..i] == q[..i];
  }

  lemma {:induction false} FilterNone<T(!new)>(q: seq<T>, p: T -> bool)
    requires forall x | x in q :: !p(x)
    ensures Filter(q, p) == []
  {
    if q != [] {
      FilterNone(q[..|q| - 1], p);
    }
  }

  lemma {:induction false} FilterAll<T(!new)>(q: seq<T>, p: T -> bool)
    requires forall x | x in q :: p(x)
    ensures Filter(q, p) == q
  {
    if q != [] {
      var front, x := q[..|q| - 1], q[|q| - 1];
      assert x in q && q == front + [x];
      FilterAll(front, p);
      FilterSnoc(front, x, p);
    }
  }

  /** The positions of q whose elements satisfy p. */
  ghost function Positions<T>(q: seq<T>, p: T -> bool): set<nat> { set i: nat | i < |q| && p(q[i]) }

  lemma PositionsSnoc<T>(q: seq<T>, x: T, p: T -> bool)
    ensures Positions(q + [x], p) == if p(x) then Positions(q, p) + {|q|} else Positions(q, p)
  {}

  /** Filtering keeps one element for each position that satisfies p. */
  lemma {:induction false} FilterCounts<T(!new)>(q: seq<T>, p: T -> bool)
    ensures |Filter(q, p)| == |Positions(q, p)|
  {
    if q != [] {
      var front, x := q[..|q| - 1], q[|q| - 1];
      assert q == front + [x];
      FilterCounts(front, p);
      FilterSnoc(front, x, p);
      PositionsSnoc(front, x, p);
      assert |front| !in Positions(front, p);
      hide Filter, Positions;
    }
  }

  /** The list in the middle of a walk that turns q into `to` from the front. */
  function Walked<T>(to: seq<T>, q: seq<T>, i: nat): seq<T>
    requires |q| == |to|
  {
    seq(|q|, k requires 0 <= k < |q| => if k < i then to[k] else q[k])
  }

  lemma WalkedStep<T>(to: seq<T>, q: seq<T>, i: nat)
    requires i < |q| == |to|
    ensures Walked(to, q, i)[i] == q[i]
    ensures Walked(to, q, i)[i := to[i]] == Walked(to, q, i + 1)
  {}

  lemma WalkedEnds<T>(to: seq<T>, q: seq<T>)
    requires |q| == |to|
    ensures Walked(to, q, 0) == q && Walked(to, q, |q|) == to
  {}

  lemma Assoc<T>(a: seq<T>, b: seq<T>, c: seq<T>)
    ensures (a + b) + c == a + (b + c)
  {}

  lemma FilterTwo<T(!new)>(a: T, b: T, p: T -> bool)
    ensures Filter([a, b], p) == (if p(a) then [a] else []) + if p(b) then [b] else []
  {
    FilterStep([a, b], p, 0);
    FilterStep([a, b], p, 1);
    assert [a, b][..2] == [a, b];
  }

  lemma FilterSnoc<T(!new)>(q: seq<T>, x: T, p: T -> bool)
    ensures Filter(q + [x], p) == if p(x) then Filter(q, p) + [x] else Filter(q, p)
  {
    assert (q + [x])[..|q|] == q;
  }

  lemma {:induction false} FilterConcat<T(!new)>(a: seq<T>, b: seq<T>, p: T -> bool)
    ensures Filter(a + b, p) == Filter(a, p) + Filter(b, p)
  {
    if b == [] {
      assert a + b == a;
    } else {
      var n := |b| - 1;
      assert b == b[..n] + [b[n]] && a + b == (a + b[..n]) + [b[n]];
      FilterConcat(a, b[..n], p);
      FilterSnoc(a + b[..n], b[n], p);
    }
  }

  /** Filtering twice is filtering by both. */
  lemma {:induction false} FilterTwice<T(!new)>(q: seq<T>, p: T -> bool, r: T -> bool, both: T -> bool)
    requires forall x | x in q :: both(x) == (p(x) && r(x))
    ensures Filter(Filter(q, p), r) == Filter(q, both)
  {
    if q != [] {
      var front, x := q[..|q| - 1], q[|q| - 1];
      assert x in q && q == front + [x];
      FilterTwice(front, p, r, both);
      FilterSnoc(front, x, p);
      FilterSnoc(front, x, both);
      if p(x) {
        FilterSnoc(Filter(front, p), x, r);
      }
    }
  }

  lemma {:induction false} FilterSame<T(!new)>(q: seq<T>, p: T -> bool, r: T -> bool)
    requires forall x | x in q :: p(x) == r(x)
    ensures Filter(q, p) == Filter(q, r)
  {
    if q != [] {
      assert q[|q| - 1] in q;
      FilterSame(q[..|q| - 1], p, r);
    }
  }

  lemma {:induction false} PairwiseFilter<T(!new)>(q: seq<T>, p: T -> bool, R: (T, T) -> bool)
    requires Pairwise(q, R)
    ensures Pairwise(Filter(q, p), R)
  {
    if q != [] {
      var front, x := q[..|q| - 1], q[|q| - 1];
      PairwiseFilter(front, p, R);
      var r := Filter(front, p);
      forall k | 0 <= k < |r| ensures R(r[k], x) {
        assert r[k] in front;
      }
    }
  }
}
