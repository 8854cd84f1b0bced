/**
 * The position discipline shared by columns (within a board) and tasks
 * (within a column): the append allocator, the ordinal assignment of the
 * reorder endpoints, density of a parent's positions, and ordering by
 * position.
 */
module Positions {

  /** The sequence 0, 1, ..., n-1. */
  function Iota(n: nat): (r: seq<int>)
    ensures |r| == n
    ensures forall i :: 0 <= i < n ==> r[i] == i
  {
    seq(n, i => i)
  }

  /** The positions of one parent's children are exactly {0, ..., n-1}, each taken once. */
  predicate Dense(ps: seq<int>) {
    multiset(ps) == multiset(Iota(|ps|))
  }

  lemma DenseBounds(ps: seq<int>)
    requires Dense(ps)
    ensures forall i :: 0 <= i < |ps| ==> 0 <= ps[i] < |ps|
    ensures forall k :: 0 <= k < |ps| ==> k in ps
  {
    forall i | 0 <= i < |ps|
      ensures 0 <= ps[i] < |ps|
    {
      assert ps[i] in multiset(ps);
      assert ps[i] in Iota(|ps|);
    }
    forall k | 0 <= k < |ps|
      ensures k in ps
    {
      assert Iota(|ps|)[k] == k;
      assert k in multiset(Iota(|ps|));
    }
  }

  /** `COALESCE(MAX(position), -1) + 1` over the positions of a parent's children. */
  function NextPosition(ps: seq<int>): (n: int)
    ensures forall i :: 0 <= i < |ps| ==> ps[i] < n
    ensures ps == [] ==> n == 0
    ensures ps != [] ==> n - 1 in ps
  {
    if ps == [] then 0
    else if |ps| == 1 then ps[0] + 1
    else
      var rest := NextPosition(ps[1..]);
      if ps[0] + 1 >= rest then ps[0] + 1 else rest
  }

  /** On dense positions the allocator hands out the number of children. */
  lemma NextPositionOfDense(ps: seq<int>)
    requires Dense(ps)
    ensures NextPosition(ps) == |ps|
  {
    DenseBounds(ps);
    var n := NextPosition(ps);
    if ps != [] {
      var j :| 0 <= j < |ps| && ps[j] == n - 1;
      assert n <= |ps|;
      var k := IndexOf(ps, |ps| - 1);
      assert ps[k] < n;
    }
  }

  /** Appending at the allocated position keeps the parent's positions dense. */
  lemma AppendKeepsDense(ps: seq<int>)
    requires Dense(ps)
    ensures Dense(ps + [NextPosition(ps)])
  {
    NextPositionOfDense(ps);
    var n := |ps|;
    assert Iota(n + 1) == Iota(n) + [n];
    calc {
      multiset(ps + [n]);
      multiset(ps) + multiset{n};
      multiset(Iota(n)) + multiset{n};
      multiset(Iota(n) + [n]);
    }
  }

  predicate Distinct<T(==)>(s: seq<T>) {
    forall i, j :: 0 <= i < j < |s| ==> s[i] != s[j]
  }

  /** The 0-based index of the first occurrence of `x`, or `|s|` when there is none. */
  function IndexOf<T(==)>(s: seq<T>, x: T): (i: nat)
    ensures i <= |s|
    ensures i < |s| <==> x in s
    ensures i < |s| ==> s[i] == x
    ensures forall j :: 0 <= j < i ==> s[j] != x
  {
    if s == [] then 0
    else if s[0] == x then 0
    else 1 + IndexOf(s[1..], x)
  }

  lemma IndexOfAppend<T>(s: seq<T>, y: T, x: T)
    requires x in s
    ensures IndexOf(s + [y], x) == IndexOf(s, x)
  {
    var i, k := IndexOf(s, x), IndexOf(s + [y], x);
    assert (s + [y])[i] == x;
    assert k <= i;
  }

  /** `s.map(f)`. */
  function Project<A, B>(f: A -> B, s: seq<A>): (r: seq<B>)
    ensures |r| == |s|
    ensures forall k :: 0 <= k < |s| ==> r[k] == f(s[k])
  {
    seq(|s|, i requires 0 <= i < |s| => f(s[i]))
  }

  lemma ProjectConcat<A, B>(f: A -> B, a: seq<A>, b: seq<A>)
    ensures Project(f, a + b) == Project(f, a) + Project(f, b)
  {
  }

  lemma MultisetCancel<T>(m1: multiset<T>, m2: multiset<T>, x: T)
    requires m1 + multiset{x} == m2 + multiset{x}
    ensures m1 == m2
  {
    assert m1 == (m1 + multiset{x}) - multiset{x};
    assert m2 == (m2 + multiset{x}) - multiset{x};
  }

  lemma MultisetSplit<T>(s: seq<T>, k: nat)
    requires k < |s|
    ensures multiset(s) == multiset(s[..k] + s[k + 1..]) + multiset{s[k]}
  {
    assert s == s[..k] + [s[k]] + s[k + 1..];
  }

  lemma ProjectSplit<A, B>(f: A -> B, b: seq<A>, k: nat)
    requires k < |b|
    ensures Project(f, b[..k] + b[k + 1..]) == Project(f, b)[..k] + Project(f, b)[k + 1..]
  {
    var rest, fb := b[..k] + b[k + 1..], Project(f, b);
    var fr := Project(f, rest);
    forall i | 0 <= i < |fr|
      ensures fr[i] == (fb[..k] + fb[k + 1..])[i]
    {
      if i < k { assert rest[i] == b[i]; } else { assert rest[i] == b[i + 1]; }
    }
  }

  /** Taking out the element at `k` takes its image out of the images' multiset. */
  lemma ProjectRemoveAt<A, B>(f: A -> B, b: seq<A>, k: nat)
    requires k < |b|
    ensures multiset(b) == multiset(b[..k] + b[k + 1..]) + multiset{b[k]}
    ensures multiset(Project(f, b)) == multiset(Project(f, b[..k] + b[k + 1..])) + multiset{f(b[k])}
  {
    MultisetSplit(b, k);
    MultisetSplit(Project(f, b), k);
    ProjectSplit(f, b, k);
  }

  /** The images of a list depend only on its multiset of elements. */
  lemma {:induction false} ProjectRespectsMultiset<A, B>(f: A -> B, a: seq<A>, b: seq<A>)
    requires multiset(a) == multiset(b)
    ensures multiset(Project(f, a)) == multiset(Project(f, b))
    decreases |a|
  {
    if a == [] {
      assert |b| == |multiset(b)| == 0;
    } else {
      var x := a[0];
      ProjectRemoveAt(f, a, 0);
      assert a[..0] + a[1..] == a[1..];
      assert x in multiset(b);
      var k := IndexOf(b, x);
      var rest := b[..k] + b[k + 1..];
      ProjectRemoveAt(f, b, k);
      MultisetCancel(multiset(a[1..]), multiset(rest), x);
      ProjectRespectsMultiset(f, a[1..], rest);
    }
  }

  /** `ord - 1` of `unnest(order) WITH ORDINALITY` for each listed id, in the order listed. */
  function Ranks<T(==)>(order: seq<T>, listed: seq<T>): (r: seq<int>)
    ensures |r| == |listed|
    ensures forall k :: 0 <= k < |listed| ==> r[k] == IndexOf(order, listed[k])
  {
    Project(x => IndexOf(order, x), listed)
  }

  /**
   * Reordering by a duplicate-free list that holds exactly the siblings' ids
   * leaves their positions exactly {0, ..., n-1}.
   */
  lemma {:induction false} RanksOfPermutationAreDense<T>(order: seq<T>, listed: seq<T>)
    requires Distinct(order)
    requires multiset(listed) == multiset(order)
    ensures Dense(Ranks(order, listed))
  {
    assert |listed| == |multiset(listed)| == |order|;
    ProjectRespectsMultiset(x => IndexOf(order, x), listed, order);
    forall k | 0 <= k < |order|
      ensures Ranks(order, order)[k] == Iota(|order|)[k]
    {
      var i := IndexOf(order, order[k]);
      assert i <= k;
    }
    assert Ranks(order, order) == Iota(|order|);
  }

  lemma {:induction false} DistinctHasSingleCounts<T>(s: seq<T>)
    requires Distinct(s)
    ensures forall x :: multiset(s)[x] <= 1
  {
    if s != [] {
      var x0, rest := s[0], s[1..];
      assert s == [x0] + rest;
      assert x0 !in rest;
      assert Distinct(rest) by {
        forall i, j | 0 <= i < j < |rest| ensures rest[i] != rest[j] {
          assert rest[i] == s[i + 1] && rest[j] == s[j + 1];
        }
      }
      DistinctHasSingleCounts(rest);
    }
  }

  lemma SingleCountsAreDistinct<T>(s: seq<T>)
    requires forall x :: multiset(s)[x] <= 1
    ensures Distinct(s)
  {
    forall i, j | 0 <= i < j < |s|
      ensures s[i] != s[j]
    {
      var rest := s[..j] + s[j + 1..];
      MultisetSplit(s, j);
      assert rest[i] == s[i];
      assert multiset(s)[s[j]] == multiset(rest)[s[j]] + 1;
    }
  }

  /** Dense positions are pairwise distinct. */
  lemma DenseIsDistinct(ps: seq<int>)
    requires Dense(ps)
    ensures Distinct(ps)
  {
    DistinctHasSingleCounts(Iota(|ps|));
    SingleCountsAreDistinct(ps);
  }

  lemma {:induction false} StrictGap(ps: seq<int>, i: nat, j: nat)
    requires forall a, b :: 0 <= a < b < |ps| ==> ps[a] < ps[b]
    requires i <= j < |ps|
    ensures ps[j] - ps[i] >= j - i
    decreases j - i
  {
    if i < j {
      StrictGap(ps, i, j - 1);
    }
  }

  /** Dense positions listed in non-decreasing order are exactly 0, 1, ..., n-1 in that order. */
  lemma SortedDenseIsIota(ps: seq<int>)
    requires Dense(ps)
    requires forall i, j :: 0 <= i < j < |ps| ==> ps[i] <= ps[j]
    ensures ps == Iota(|ps|)
  {
    DenseBounds(ps);
    DenseIsDistinct(ps);
    var n := |ps|;
    forall k | 0 <= k < n
      ensures ps[k] == k
    {
      StrictGap(ps, 0, k);
      StrictGap(ps, k, n - 1);
    }
  }

  /** Non-decreasing by the given key. */
  predicate SortedBy<T>(s: seq<T>, key: T -> int) {
    forall i, j :: 0 <= i < j < |s| ==> key(s[i]) <= key(s[j])
  }

  function InsertByKey<T(==)>(x: T, s: seq<T>, key: T -> int): (r: seq<T>)
    requires SortedBy(s, key)
    ensures SortedBy(r, key)
    ensures multiset(r) == multiset{x} + multiset(s)
    ensures |r| == |s| + 1
    ensures r[0] == x || (s != [] && r[0] == s[0])
  {
    if s == [] || key(x) <= key(s[0]) then
      assert forall j :: 0 <= j < |s| ==> key(x) <= key(s[j]);
      [x] + s
    else
      var rest := InsertByKey(x, s[1..], key);
      assert s == [s[0]] + s[1..];
      assert key(s[0]) <= key(rest[0]);
      assert forall j :: 0 <= j < |rest| ==> key(rest[0]) <= key(rest[j]);
      [s[0]] + rest
  }

  /** `ORDER BY key`: a stable insertion sort, rows of equal key keep their table order. */
  function SortByKey<T(==)>(s: seq<T>, key: T -> int): (r: seq<T>)
    ensures SortedBy(r, key)
    ensures multiset(r) == multiset(s)
  {
    if s == [] then []
    else
      assert s == [s[0]] + s[1..];
      InsertByKey(s[0], SortByKey(s[1..], key), key)
  }
}
