/** Apportionment of a forecast total across categories by the
    largest-remainder (Hamilton) method, as the prediction controller does
    it at every horizon step: every category first gets the floor of its
    share `t * p`, then `Math.max(0, Math.round(t) - sumFloors)` single
    units go to the categories in descending order of the fractional parts
    of their shares, ties staying in category order because the sort is
    stable. Categories are represented by their index in the category
    list. */
module Allocation {
  import opened Numeric
  import opened Sequences

  /** x - Math.floor(x). */
  function Frac(x: real): (f: real)
    ensures 0.0 <= f < 1.0
  {
    x - Floor(x) as real
  }

  /** `t * p` for every category. */
  function Raw(t: real, p: seq<real>): (r: seq<real>)
    ensures |r| == |p| && forall i :: 0 <= i < |p| ==> r[i] == t * p[i]
  {
    seq(|p|, i requires 0 <= i < |p| => t * p[i])
  }

  function Floors(raw: seq<real>): (f: seq<int>)
    ensures |f| == |raw| && forall i :: 0 <= i < |raw| ==> f[i] == Floor(raw[i])
  {
    seq(|raw|, i requires 0 <= i < |raw| => Floor(raw[i]))
  }

  function Fracs(raw: seq<real>): (f: seq<real>)
    ensures |f| == |raw| && forall i :: 0 <= i < |raw| ==> f[i] == Frac(raw[i])
  {
    seq(|raw|, i requires 0 <= i < |raw| => Frac(raw[i]))
  }

  /** The number of single units handed out: the remainder, but never more
      than one per category (the loop stops at the end of the list). */
  function BonusCount(t: real, raw: seq<real>): (k: nat)
    ensures k <= |raw|
  {
    var d := Round(t) - SumInt(Floors(raw));
    var rem := if d > 0 then d else 0;
    if rem < |raw| then rem else |raw|
  }

  /** Category i is served before category j: a larger fractional part of its
      share, or an equal one and an earlier position. */
  predicate Before(raw: seq<real>, i: int, j: int)
    requires 0 <= i < |raw| && 0 <= j < |raw|
  {
    Frac(raw[i]) > Frac(raw[j]) || (Frac(raw[i]) == Frac(raw[j]) && i < j)
  }

  /** `s` is a largest-remainder apportionment of `t` by the proportions `p`:
      every category's share is the floor of `t * p` or one more, exactly
      BonusCount categories get one more, and each of them comes Before each
      category that does not. */
  predicate IsLargestRemainder(t: real, p: seq<real>, s: seq<int>)
  {
    var raw := Raw(t, p);
    |s| == |p|
    && (forall i :: 0 <= i < |p| ==> s[i] == Floor(raw[i]) || s[i] == Floor(raw[i]) + 1)
    && SumInt(s) == SumInt(Floors(raw)) + BonusCount(t, raw)
    && (forall i, j :: 0 <= i < |p| && 0 <= j < |p| && s[i] != Floor(raw[i]) && s[j] == Floor(raw[j]) ==> Before(raw, i, j))
  }

  /** The comparator `(a, b) => b[1] - a[1]` over [category, fraction] pairs,
      on category indices: a sorts strictly before b when its fraction is
      larger. */
  function FracGreater(fr: seq<real>): (lt: (int, int) -> bool)
  {
    (a: int, b: int) => 0 <= a < |fr| && 0 <= b < |fr| && fr[a] > fr[b]
  }

  /** The same order with ties broken by position: a total strict order. */
  function FracThenIndex(fr: seq<real>): (lt: (int, int) -> bool)
  {
    (a: int, b: int) => 0 <= a < |fr| && 0 <= b < |fr| && (fr[a] > fr[b] || (fr[a] == fr[b] && a < b))
  }

  function Range(n: nat): (r: seq<int>)
    ensures |r| == n && forall i :: 0 <= i < n ==> r[i] == i
  {
    seq(n, i => i)
  }

  lemma FracThenIndexStrict(fr: seq<real>)
    ensures StrictOrder(FracThenIndex(fr))
  {
  }

  /** Inserting x gives the same result under two orders that agree on how x
      compares with every element already there. */
  lemma {:induction false} InsertAgrees(x: int, s: seq<int>, lt1: (int, int) -> bool, lt2: (int, int) -> bool)
    requires forall k :: 0 <= k < |s| ==> lt1(x, s[k]) == lt2(x, s[k])
    ensures Insert(x, s, lt1) == Insert(x, s, lt2)
  {
    if |s| > 0 && !lt1(x, s[0]) {
      InsertAgrees(x, s[1..], lt1, lt2);
    }
  }

  /** Stability: sorting the positions 0..n-1 by fraction alone gives the
      order "fraction descending, then position ascending". */
  lemma {:induction false} StableTieBreak(fr: seq<real>, n: nat)
    requires n <= |fr|
    ensures SortBy(Range(n), FracGreater(fr)) == SortBy(Range(n), FracThenIndex(fr))
  {
    if n > 0 {
      assert Range(n)[..n - 1] == Range(n - 1);
      StableTieBreak(fr, n - 1);
      var s := SortBy(Range(n - 1), FracGreater(fr));
      forall k | 0 <= k < |s|
        ensures FracGreater(fr)(n - 1, s[k]) == FracThenIndex(fr)(n - 1, s[k])
      {
        assert s[k] in multiset(Range(n - 1));
      }
      InsertAgrees(n - 1, s, FracGreater(fr), FracThenIndex(fr));
    }
  }

  /** The sorted positions are a permutation of 0..n-1 in which every position
      comes strictly before each later one. */
  lemma OrderFacts(fr: seq<real>, order: seq<int>)
    requires order == SortBy(Range(|fr|), FracGreater(fr))
    ensures |order| == |fr|
    ensures NoDuplicates(order)
    ensures forall k :: 0 <= k < |order| ==> 0 <= order[k] < |fr|
    ensures forall i :: 0 <= i < |fr| ==> i in order
    ensures forall a, b :: 0 <= a < b < |order| ==> FracThenIndex(fr)(order[a], order[b])
  {
    var n := |fr|;
    StableTieBreak(fr, n);
    SortedByFracThenIndex(fr, order);
    OrderIsPermutation(n, order);
    SortedStrict(order, FracThenIndex(fr));
  }

  lemma SortedByFracThenIndex(fr: seq<real>, order: seq<int>)
    requires order == SortBy(Range(|fr|), FracThenIndex(fr))
    ensures Sorted(order, FracThenIndex(fr))
  {
    FracThenIndexStrict(fr);
    SortBySorted(Range(|fr|), FracThenIndex(fr));
  }

  /** A permutation of 0..n-1 holds each of them exactly once. */
  lemma OrderIsPermutation(n: nat, order: seq<int>)
    requires multiset(order) == multiset(Range(n))
    ensures |order| == n
    ensures NoDuplicates(order)
    ensures forall k :: 0 <= k < |order| ==> 0 <= order[k] < n
    ensures forall i :: 0 <= i < n ==> i in order
  {
    assert |order| == |multiset(order)| == |multiset(Range(n))| == n;
    assert NoDuplicates(Range(n));
    MultisetNoDuplicates(Range(n), order);
    forall k | 0 <= k < |order|
      ensures 0 <= order[k] < n
    {
      assert order[k] in multiset(Range(n));
    }
    forall i | 0 <= i < n
      ensures i in order
    {
      assert Range(n)[i] == i;
      assert i in multiset(Range(n));
      assert i in multiset(order);
    }
  }

  /** One horizon step of the apportionment: floors, the remainder, the
      stable sort by fraction, and the loop that hands out single units while
      `remainder > 0`. */
  method AllocateStep(t: real, p: seq<real>) returns (s: seq<int>)
    ensures IsLargestRemainder(t, p, s)
  {
    var n := |p|;
    var raw := Raw(t, p);
    var floors := Floors(raw);
    var d := Round(t) - SumInt(floors);
    var remainder := if d > 0 then d else 0;
    var fr := Fracs(raw);
    var order := SortBy(Range(n), FracGreater(fr));
    OrderIsPermutation(n, order);
    var k;
    s, k := HandOut(floors, order, remainder);
    Conclude(t, p, order, k, s);
  }

  /** The loop: while units remain, one more to the next position in
      `order`. */
  method HandOut(floors: seq<int>, order: seq<int>, remainder0: int) returns (s: seq<int>, k: int)
    requires |order| == |floors| && NoDuplicates(order)
    requires forall q :: 0 <= q < |order| ==> 0 <= order[q] < |floors|
    requires remainder0 >= 0
    ensures 0 <= k <= |floors| && k <= remainder0 && (k == |floors| || k == remainder0)
    ensures |s| == |floors|
    ensures forall m :: 0 <= m < |floors| ==> s[m] == floors[m] + (if m in order[..k] then 1 else 0)
    ensures SumInt(s) == SumInt(floors) + k
  {
    var n := |floors|;
    var remainder := remainder0;
    s := floors;
    k := 0;
    while k < n && remainder > 0
      invariant 0 <= k <= n && k <= remainder0 && remainder == remainder0 - k
      invariant |s| == n
      invariant forall m :: 0 <= m < n ==> s[m] == floors[m] + (if m in order[..k] then 1 else 0)
      invariant SumInt(s) == SumInt(floors) + k
    {
      var c := order[k];
      var s' := s[c := s[c] + 1];
      GiveUnit(floors, order, k, s, s');
      s := s';
      remainder := remainder - 1;
      k := k + 1;
    }
  }

  /** After the loop, k units went to the first k sorted positions, with k
      the bonus count: that is a largest-remainder apportionment. */
  lemma Conclude(t: real, p: seq<real>, order: seq<int>, k: int, s: seq<int>)
    requires order == SortBy(Range(|p|), FracGreater(Fracs(Raw(t, p))))
    requires var d := Round(t) - SumInt(Floors(Raw(t, p)));
      var rem0 := if d > 0 then d else 0;
      0 <= k <= |p| && k <= rem0 && (k == |p| || k == rem0)
    requires |s| == |p|
    requires forall m :: 0 <= m < |p| ==> s[m] == Floors(Raw(t, p))[m] + (if m in order[..k] then 1 else 0)
    requires SumInt(s) == SumInt(Floors(Raw(t, p))) + k
    ensures IsLargestRemainder(t, p, s)
  {
    var raw := Raw(t, p);
    var fr := Fracs(raw);
    OrderFacts(fr, order);
    BonusPrefix(raw, fr, order, k, Floors(raw), s);
    assert k == BonusCount(t, raw);
  }

  /** The loop body keeps its invariant: one more unit, to the next sorted
      position. */
  lemma GiveUnit(floors: seq<int>, order: seq<int>, k: int, s: seq<int>, s': seq<int>)
    requires |s| == |floors| == |order| && 0 <= k < |order|
    requires NoDuplicates(order)
    requires forall q :: 0 <= q < |order| ==> 0 <= order[q] < |s|
    requires forall m :: 0 <= m < |s| ==> s[m] == floors[m] + (if m in order[..k] then 1 else 0)
    requires s' == s[order[k] := s[order[k]] + 1]
    ensures |s'| == |s|
    ensures forall m :: 0 <= m < |s| ==> s'[m] == floors[m] + (if m in order[..k + 1] then 1 else 0)
    ensures SumInt(s') == SumInt(s) + 1
  {
    var c := order[k];
    assert c !in order[..k];
    assert order[..k + 1] == order[..k] + [c];
    SumIntIncrement(s, c);
  }

  /** Handing one unit to each of the first k sorted positions serves every
      one of them Before every other position. */
  lemma BonusPrefix(raw: seq<real>, fr: seq<real>, order: seq<int>, k: int, floors: seq<int>, s: seq<int>)
    requires fr == Fracs(raw) && floors == Floors(raw)
    requires |order| == |raw| && 0 <= k <= |order| && |s| == |raw|
    requires forall i :: 0 <= i < |raw| ==> i in order
    requires forall a, b :: 0 <= a < b < |order| ==> FracThenIndex(fr)(order[a], order[b])
    requires forall m :: 0 <= m < |raw| ==> s[m] == floors[m] + (if m in order[..k] then 1 else 0)
    ensures forall i, j :: 0 <= i < |raw| && 0 <= j < |raw| && s[i] != floors[i] && s[j] == floors[j] ==> Before(raw, i, j)
  {
    forall i, j | 0 <= i < |raw| && 0 <= j < |raw| && s[i] != floors[i] && s[j] == floors[j]
      ensures Before(raw, i, j)
    {
      var a :| 0 <= a < k && order[a] == i;
      assert j in order;
      var b :| 0 <= b < |order| && order[b] == j;
      assert FracThenIndex(fr)(order[a], order[b]);
    }
  }

  lemma {:induction false} SumIntIncrement(s: seq<int>, c: int)
    requires 0 <= c < |s|
    ensures SumInt(s[c := s[c] + 1]) == SumInt(s) + 1
  {
    var n := |s|;
    if c == n - 1 {
      assert s[c := s[c] + 1][..n - 1] == s[..n - 1];
    } else {
      assert s[c := s[c] + 1][..n - 1] == s[..n - 1][c := s[c] + 1];
      SumIntIncrement(s[..n - 1], c);
    }
  }

  /** The floors of the shares lie within |p| below the sum of the shares. */
  lemma {:induction false} FloorsBound(raw: seq<real>)
    ensures SumInt(Floors(raw)) as real <= Sum(raw) <= SumInt(Floors(raw)) as real + |raw| as real
  {
    var n := |raw|;
    if n > 0 {
      var f := Floors(raw);
      var init := raw[..n - 1];
      assert f[..n - 1] == Floors(init);
      FloorsBound(init);
      var a, b := SumInt(Floors(init)), Sum(init);
      assert a as real <= b <= a as real + (n - 1) as real;
      assert SumInt(f) == a + f[n - 1];
      assert Sum(raw) == b + raw[n - 1];
      assert f[n - 1] as real <= raw[n - 1] < f[n - 1] as real + 1.0;
      assert SumInt(f) as real == a as real + f[n - 1] as real;
      assert |raw| as real == (n - 1) as real + 1.0;
    }
  }

  lemma {:induction false} RawSum(t: real, p: seq<real>)
    ensures Sum(Raw(t, p)) == t * Sum(p)
  {
    var n := |p|;
    if n > 0 {
      var r, r' := Raw(t, p), Raw(t, p[..n - 1]);
      assert forall i :: 0 <= i < n - 1 ==> r[..n - 1][i] == r'[i];
      assert r[..n - 1] == r';
      RawSum(t, p[..n - 1]);
    }
  }

  /** When the proportions sum to 1 the remainder never exceeds the number of
      categories and is never negative, so the shares sum to exactly
      Math.round(t). */
  lemma AllocationSum(t: real, p: seq<real>, s: seq<int>)
    requires IsLargestRemainder(t, p, s)
    requires Sum(p) == 1.0
    ensures SumInt(s) == Round(t)
  {
    var raw := Raw(t, p);
    assert SumInt(s) == SumInt(Floors(raw)) + BonusCount(t, raw);
    RawSum(t, p);
    BonusCoversRemainder(t, raw);
  }

  /** When the raw shares sum to t, the floors plus the bonus give exactly
      Math.round(t). */
  lemma BonusCoversRemainder(t: real, raw: seq<real>)
    requires Sum(raw) == t
    ensures SumInt(Floors(raw)) + BonusCount(t, raw) == Round(t)
  {
    FloorsBound(raw);
    RemainderInRange(t, SumInt(Floors(raw)), |raw|);
  }

  /** With f <= t <= f + n, Math.round(t) - f lies in 0..n. */
  lemma RemainderInRange(t: real, f: int, n: nat)
    requires f as real <= t <= f as real + n as real
    ensures 0 <= Round(t) - f <= n
  {
    var r := Round(t);
    assert t - 0.5 < r as real <= t + 0.5;
    assert (f - 1) as real < r as real < (f + n + 1) as real;
  }

  /** The apportionment is determined by t and p: two largest-remainder
      apportionments are the same. */
  lemma AllocationUnique(t: real, p: seq<real>, s1: seq<int>, s2: seq<int>)
    requires IsLargestRemainder(t, p, s1) && IsLargestRemainder(t, p, s2)
    ensures s1 == s2
  {
    if s1 != s2 {
      var i :| 0 <= i < |p| && s1[i] != s2[i];
      if s1[i] > s2[i] {
        var j := SumWitness(s1, s2, i);
        assert false;
      } else {
        var j := SumWitness(s2, s1, i);
        assert false;
      }
    }
  }

  /** Two sequences with the same sum: where one is larger somewhere, the
      other is larger elsewhere. */
  lemma SumWitness(a: seq<int>, b: seq<int>, i: int) returns (j: int)
    requires |a| == |b| && 0 <= i < |a| && SumInt(a) == SumInt(b) && a[i] > b[i]
    ensures 0 <= j < |a| && a[j] < b[j]
  {
    if forall k :: 0 <= k < |a| ==> a[k] >= b[k] {
      SumStrict(a, b, i);
      assert false;
    }
    j :| 0 <= j < |a| && a[j] < b[j];
  }

  lemma {:induction false} SumStrict(a: seq<int>, b: seq<int>, i: int)
    requires |a| == |b| && 0 <= i < |a|
    requires forall k :: 0 <= k < |a| ==> a[k] >= b[k]
    requires a[i] > b[i]
    ensures SumInt(a) > SumInt(b)
  {
    var n := |a|;
    if i == n - 1 {
      SumIntMonotone(a[..n - 1], b[..n - 1]);
    } else {
      SumStrict(a[..n - 1], b[..n - 1], i);
    }
  }

  lemma {:induction false} SumIntMonotone(a: seq<int>, b: seq<int>)
    requires |a| == |b|
    requires forall k :: 0 <= k < |a| ==> a[k] >= b[k]
    ensures SumInt(a) >= SumInt(b)
  {
    var n := |a|;
    if n > 0 {
      SumIntMonotone(a[..n - 1], b[..n - 1]);
    }
  }

  /** `totalPred.forEach((t, i) => …)`: apportions every step and writes the
      shares into column i of the category-by-step table, which starts as
      all zeros. */
  method Distribute(totals: seq<real>, p: seq<real>) returns (table: seq<seq<int>>)
    ensures |table| == |p| && forall c :: 0 <= c < |p| ==> |table[c]| == |totals|
    ensures forall i :: 0 <= i < |totals| ==> IsLargestRemainder(totals[i], p, Column(table, i))
  {
    table := seq(|p|, _ => Repeat(0, |totals|));
    var i := 0;
    while i < |totals|
      invariant 0 <= i <= |totals|
      invariant |table| == |p| && forall c :: 0 <= c < |p| ==> |table[c]| == |totals|
      invariant forall i' :: 0 <= i' < i ==> IsLargestRemainder(totals[i'], p, Column(table, i'))
    {
      var shares := AllocateStep(totals[i], p);
      ghost var before := table;
      var c := 0;
      while c < |p|
        invariant 0 <= c <= |p|
        invariant |table| == |p| && forall c' :: 0 <= c' < |p| ==> |table[c']| == |totals|
        invariant forall c', i' :: 0 <= c' < |p| && 0 <= i' < |totals| && i' != i ==> table[c'][i'] == before[c'][i']
        invariant forall c' :: 0 <= c' < c ==> table[c'][i] == shares[c']
      {
        table := table[c := table[c][i := shares[c]]];
        c := c + 1;
      }
      assert Column(table, i) == shares;
      forall i' | 0 <= i' < i
        ensures Column(table, i') == Column(before, i')
      {
      }
      i := i + 1;
    }
  }

  /** `sumAvg > 0 ? avg / sumAvg : 1 / Math.max(1, n)`: the proportions of the
      n categories. */
  function Proportions(avgs: seq<real>): (p: seq<real>)
    ensures |p| == |avgs|
    ensures (forall i :: 0 <= i < |avgs| ==> avgs[i] >= 0.0) ==> forall i :: 0 <= i < |p| ==> p[i] >= 0.0
  {
    var total := Sum(avgs);
    if total > 0.0 then
      assert (forall i :: 0 <= i < |avgs| ==> avgs[i] >= 0.0) ==> forall i :: 0 <= i < |avgs| ==> avgs[i] / total >= 0.0;
      seq(|avgs|, i requires 0 <= i < |avgs| => avgs[i] / total)
    else
      Repeat(1.0 / (if |avgs| > 1 then |avgs| else 1) as real, |avgs|)
  }

  /** Proportions of at least one category sum to 1 (an equal split when the
      averages sum to nothing). */
  lemma ProportionsSumToOne(avgs: seq<real>)
    requires |avgs| > 0
    ensures Sum(Proportions(avgs)) == 1.0
  {
    var total := Sum(avgs);
    var n := |avgs|;
    if total > 0.0 {
      ScaledSum(avgs, total);
      assert seq(n, i requires 0 <= i < n => avgs[i] / total) == Proportions(avgs);
    } else {
      RepeatSum(1.0 / n as real, n);
    }
  }

  lemma {:induction false} ScaledSum(a: seq<real>, d: real)
    requires d != 0.0
    ensures Sum(seq(|a|, i requires 0 <= i < |a| => a[i] / d)) == Sum(a) / d
  {
    var n := |a|;
    if n > 0 {
      assert seq(n, i requires 0 <= i < n => a[i] / d)[..n - 1] == seq(n - 1, i requires 0 <= i < n - 1 => a[..n - 1][i] / d);
      ScaledSum(a[..n - 1], d);
    }
  }

  lemma {:induction false} RepeatSum(x: real, n: nat)
    ensures Sum(Repeat(x, n)) == n as real * x
  {
    if n > 0 {
      assert Repeat(x, n)[..n - 1] == Repeat(x, n - 1);
      RepeatSum(x, n - 1);
    }
  }
}
