/** Array.prototype.filter, `[...new Set(xs)]` and Array.prototype.sort with
    a comparator, as functions on sequences with the facts the core needs
    about them. */
module Sequences {

  /** `a` can be obtained from `b` by deleting elements. */
  predicate IsSubsequence<T(==)>(a: seq<T>, b: seq<T>)
    decreases |b|
  {
    a == [] || (|b| > 0 && ((a[0] == b[0] && IsSubsequence(a[1..], b[1..])) || IsSubsequence(a, b[1..])))
  }

  /** xs.filter(p): exactly the elements that pass, in their original order. */
  function Filter<T(==,!new)>(xs: seq<T>, p: T -> bool): (r: seq<T>)
    ensures |r| <= |xs|
    ensures forall x :: x in r <==> x in xs && p(x)
    ensures forall i :: 0 <= i < |r| ==> p(r[i])
    ensures IsSubsequence(r, xs)
  {
    if |xs| == 0 then []
    else if p(xs[0]) then [xs[0]] + Filter(xs[1..], p)
    else Filter(xs[1..], p)
  }

  /** The filter keeps each passing element as often as xs holds it. */
  lemma {:induction false} FilterMultiplicity<T(!new)>(xs: seq<T>, p: T -> bool)
    ensures forall x :: multiset(Filter(xs, p))[x] == if p(x) then multiset(xs)[x] else 0
  {
    if |xs| > 0 {
      FilterMultiplicity(xs[1..], p);
      assert xs == [xs[0]] + xs[1..];
    }
  }

  lemma FilterAppend<T(!new)>(a: seq<T>, b: seq<T>, p: T -> bool)
    ensures Filter(a + b, p) == Filter(a, p) + Filter(b, p)
  {
    if |a| > 0 {
      assert (a + b)[1..] == a[1..] + b;
      FilterAppend(a[1..], b, p);
    } else {
      assert a + b == b;
    }
  }

  /** A filter every element passes keeps the whole sequence. */
  lemma {:induction false} FilterKeepsAll<T(!new)>(xs: seq<T>, p: T -> bool)
    requires forall i :: 0 <= i < |xs| ==> p(xs[i])
    ensures Filter(xs, p) == xs
  {
    if |xs| > 0 {
      FilterKeepsAll(xs[1..], p);
      assert xs == [xs[0]] + xs[1..];
    }
  }

  /** The number of elements that satisfy p. */
  function Count<T>(xs: seq<T>, p: T -> bool): (n: nat)
    ensures n <= |xs|
  {
    if |xs| == 0 then 0 else (if p(xs[0]) then 1 else 0) + Count(xs[1..], p)
  }

  lemma {:induction false} CountIsFilterLength<T(!new)>(xs: seq<T>, p: T -> bool)
    ensures Count(xs, p) == |Filter(xs, p)|
  {
    if |xs| > 0 {
      CountIsFilterLength(xs[1..], p);
    }
  }

  predicate NoDuplicates<T(==)>(xs: seq<T>)
  {
    forall i, j :: 0 <= i < j < |xs| ==> xs[i] != xs[j]
  }

  /** `[...new Set(xs)]`: each distinct element once, in order of first
      appearance (every occurrence of a later element comes after some
      occurrence of each earlier one). */
  function Dedup<T(==,!new)>(xs: seq<T>): (r: seq<T>)
    ensures NoDuplicates(r)
    ensures forall x :: x in r <==> x in xs
    ensures |r| <= |xs|
    ensures forall i, j, q :: 0 <= i < j < |r| && 0 <= q < |xs| && xs[q] == r[j] ==> r[i] in xs[..q]
  {
    if |xs| == 0 then []
    else
      var d := Dedup(xs[..|xs| - 1]);
      var x := xs[|xs| - 1];
      assert forall q :: 0 <= q < |xs| - 1 ==> xs[..q] == xs[..|xs| - 1][..q];
      if x in d then
        assert forall i, j :: 0 <= i < j < |d| && xs[|xs| - 1] == d[j] ==> d[i] in xs[..|xs| - 1] by {
          forall i, j | 0 <= i < j < |d| && xs[|xs| - 1] == d[j]
            ensures d[i] in xs[..|xs| - 1]
          {
            var q' :| 0 <= q' < |xs| - 1 && xs[q'] == d[j];
            assert d[i] in xs[..q'];
          }
        }
        d
      else
        d + [x]
  }

  /** `lt` is an irreflexive, transitive relation: what a consistent sort
      comparator's "comes strictly before" is. */
  ghost predicate StrictOrder<T(!new)>(lt: (T, T) -> bool)
  {
    (forall a :: !lt(a, a)) &&
    (forall a, b, c :: lt(a, b) && lt(b, c) ==> lt(a, c))
  }

  /** No element is strictly before an element to its left. */
  predicate Sorted<T>(s: seq<T>, lt: (T, T) -> bool)
  {
    forall i, j :: 0 <= i < j < |s| ==> !lt(s[j], s[i])
  }

  /** Insert x before the first element it is strictly before: equal
      elements keep their order, so the sort below is stable. */
  function Insert<T>(x: T, s: seq<T>, lt: (T, T) -> bool): (r: seq<T>)
    ensures |r| == |s| + 1
    ensures multiset(r) == multiset(s) + multiset{x}
  {
    if |s| == 0 then [x]
    else if lt(x, s[0]) then [x] + s
    else
      assert s == [s[0]] + s[1..];
      [s[0]] + Insert(x, s[1..], lt)
  }

  /** A stable insertion sort: what Array.prototype.sort(comparator) returns
      when the comparator is consistent. */
  function SortBy<T>(xs: seq<T>, lt: (T, T) -> bool): (r: seq<T>)
    ensures |r| == |xs|
    ensures multiset(r) == multiset(xs)
  {
    if |xs| == 0 then []
    else
      assert xs == xs[..|xs| - 1] + [xs[|xs| - 1]];
      Insert(xs[|xs| - 1], SortBy(xs[..|xs| - 1], lt), lt)
  }

  lemma {:induction false} InsertSorted<T(!new)>(x: T, s: seq<T>, lt: (T, T) -> bool)
    requires StrictOrder(lt)
    requires Sorted(s, lt)
    ensures Sorted(Insert(x, s, lt), lt)
  {
    if |s| > 0 && !lt(x, s[0]) {
      var t := Insert(x, s[1..], lt);
      InsertSorted(x, s[1..], lt);
      forall j | 0 <= j < |t|
        ensures !lt(t[j], s[0])
      {
        assert t[j] in multiset(t);
        assert t[j] in multiset(s[1..]) || t[j] == x;
        if t[j] != x {
          var k :| 0 <= k < |s[1..]| && s[1..][k] == t[j];
          assert s[k + 1] == t[j];
        }
      }
    }
  }

  /** Insertion only asks how x compares with the elements of s. */
  lemma {:induction false} InsertAgree<T>(x: T, s: seq<T>, lt1: (T, T) -> bool, lt2: (T, T) -> bool)
    requires forall b :: b in s ==> lt1(x, b) == lt2(x, b)
    ensures Insert(x, s, lt1) == Insert(x, s, lt2)
  {
    if |s| > 0 && !lt1(x, s[0]) {
      assert forall b :: b in s[1..] ==> b in s;
      InsertAgree(x, s[1..], lt1, lt2);
    }
  }

  /** Two comparators that agree on the elements sort them alike. */
  lemma {:induction false} SortByAgree<T>(xs: seq<T>, lt1: (T, T) -> bool, lt2: (T, T) -> bool)
    requires forall a, b :: a in xs && b in xs ==> lt1(a, b) == lt2(a, b)
    ensures SortBy(xs, lt1) == SortBy(xs, lt2)
  {
    if |xs| > 0 {
      var init, x := xs[..|xs| - 1], xs[|xs| - 1];
      assert forall a :: a in init ==> a in xs;
      SortByAgree(init, lt1, lt2);
      var s := SortBy(init, lt1);
      forall b | b in s
        ensures lt1(x, b) == lt2(x, b)
      {
        assert b in multiset(s);
        assert b in multiset(init);
      }
      InsertAgree(x, s, lt1, lt2);
    }
  }

  /** The sort's result is sorted when the comparator is consistent. */
  lemma {:induction false} SortBySorted<T(!new)>(xs: seq<T>, lt: (T, T) -> bool)
    requires StrictOrder(lt)
    ensures Sorted(SortBy(xs, lt), lt)
  {
    if |xs| > 0 {
      SortBySorted(xs[..|xs| - 1], lt);
      InsertSorted(xs[|xs| - 1], SortBy(xs[..|xs| - 1], lt), lt);
    }
  }

  /** `xs.slice().sort(cmp).slice(0, n)`: at most n elements of xs, in
      comparator order, and none of those left out comes strictly before one
      that was kept. */
  function TopN<T(!new)>(xs: seq<T>, lt: (T, T) -> bool, n: nat): (r: seq<T>)
    ensures |r| == if |xs| < n then |xs| else n
    ensures multiset(r) <= multiset(xs)
    ensures StrictOrder(lt) ==> Sorted(r, lt)
    ensures StrictOrder(lt) ==> forall i, x :: 0 <= i < |r| && multiset(r)[x] < multiset(xs)[x] ==> !lt(x, r[i])
  {
    var k := if |xs| < n then |xs| else n;
    TopNFacts(xs, lt, k);
    SortBy(xs, lt)[..k]
  }

  lemma TopNFacts<T(!new)>(xs: seq<T>, lt: (T, T) -> bool, k: nat)
    requires k <= |xs|
    ensures var r := SortBy(xs, lt)[..k];
      multiset(r) <= multiset(xs)
      && (StrictOrder(lt) ==> Sorted(r, lt))
      && (StrictOrder(lt) ==> forall i, x :: 0 <= i < |r| && multiset(r)[x] < multiset(xs)[x] ==> !lt(x, r[i]))
  {
    var sorted := SortBy(xs, lt);
    PrefixSplit(sorted, k);
    if StrictOrder(lt) {
      SortBySorted(xs, lt);
      PrefixOfSorted(sorted, k, lt);
    }
  }

  /** The first k of a sorted sequence are sorted, and nothing after them
      comes strictly before one of them. */
  lemma PrefixOfSorted<T>(sorted: seq<T>, k: nat, lt: (T, T) -> bool)
    requires k <= |sorted| && Sorted(sorted, lt)
    ensures Sorted(sorted[..k], lt)
    ensures forall i, x :: 0 <= i < k && multiset(sorted[..k])[x] < multiset(sorted)[x] ==> !lt(x, sorted[..k][i])
  {
    var r, rest := sorted[..k], sorted[k..];
    PrefixSplit(sorted, k);
    forall i, x | 0 <= i < k && multiset(r)[x] < multiset(sorted)[x]
      ensures !lt(x, r[i])
    {
      assert x in multiset(rest);
      var j :| 0 <= j < |rest| && rest[j] == x;
      assert sorted[k + j] == x;
    }
  }

  /** Cutting a sequence splits its multiset. */
  lemma PrefixSplit<T>(s: seq<T>, k: nat)
    requires k <= |s|
    ensures multiset(s) == multiset(s[..k]) + multiset(s[k..])
  {
    assert s == s[..k] + s[k..];
  }

  /** For a total strict order, a sorted sequence without duplicates is
      strictly increasing. */
  lemma SortedStrict<T>(s: seq<T>, lt: (T, T) -> bool)
    requires Sorted(s, lt) && NoDuplicates(s)
    requires forall i, j :: 0 <= i < |s| && 0 <= j < |s| && s[i] != s[j] ==> lt(s[i], s[j]) || lt(s[j], s[i])
    ensures forall i, j :: 0 <= i < j < |s| ==> lt(s[i], s[j])
  {
  }

  lemma MultisetNoDuplicates<T>(a: seq<T>, b: seq<T>)
    requires multiset(a) == multiset(b)
    requires NoDuplicates(a)
    ensures NoDuplicates(b)
  {
    forall i, j | 0 <= i < j < |b|
      ensures b[i] != b[j]
    {
      if b[i] == b[j] {
        assert multiset(b)[b[i]] >= 2 by {
          var rest := b[..i] + b[i + 1..];
          assert b == b[..i] + [b[i]] + b[i + 1..];
          assert b[j] in rest by { assert rest[j - 1] == b[j]; }
          assert multiset(b) == multiset(rest) + multiset{b[i]};
        }
        CountOccurrencesNoDup(a, b[i]);
      }
    }
  }

  lemma {:induction false} CountOccurrencesNoDup<T>(a: seq<T>, x: T)
    requires NoDuplicates(a)
    ensures multiset(a)[x] <= 1
  {
    if |a| > 0 {
      assert a == [a[0]] + a[1..];
      CountOccurrencesNoDup(a[1..], x);
      if a[0] == x {
        assert x !in a[1..];
      }
    }
  }

  /** Column i of a table given as a sequence of rows. */
  function Column<T>(m: seq<seq<T>>, i: int): (col: seq<T>)
    requires 0 <= i
    requires forall c :: 0 <= c < |m| ==> i < |m[c]|
    ensures |col| == |m| && forall c :: 0 <= c < |m| ==> col[c] == m[c][i]
  {
    seq(|m|, c requires 0 <= c < |m| => m[c][i])
  }

  /** The first components of a sequence of pairs, in order, repeats included. */
  function Firsts<A, B>(ps: seq<(A, B)>): (fs: seq<A>)
    ensures |fs| == |ps| && forall i :: 0 <= i < |ps| ==> fs[i] == ps[i].0
  {
    seq(|ps|, i requires 0 <= i < |ps| => ps[i].0)
  }

  /** `xs.slice(-w)`: the last w elements, all of them when there are fewer,
      and (since -0 is 0) all of them for w = 0. */
  function SliceFromEnd<T>(xs: seq<T>, w: nat): (t: seq<T>)
    ensures |t| <= |xs| && t == xs[|xs| - |t|..]
    ensures 0 < w < |xs| ==> |t| == w
    ensures w == 0 || w >= |xs| ==> t == xs
  {
    if 0 < w < |xs| then xs[|xs| - w..] else xs
  }
}
