/** Summing amounts per key into a JavaScript Map (or a plain object used as
    one): `map.set(key, (map.get(key) || 0) + amount)` for each entry in
    turn, as the expense history groups by period and the dashboard groups
    by category. */
module Grouping {
  import opened Numeric
  import opened Sequences
  import opened JsValues

  /** The running sums: the keys in insertion order and the sum held for
      each. */
  datatype Groups = Groups(keys: seq<string>, sums: map<string, JsNum>)

  predicate WellFormed(g: Groups)
  {
    NoDuplicates(g.keys) && (forall k :: k in g.keys ==> k in g.sums) && (forall k :: k in g.sums ==> k in g.keys)
  }

  /** One step: `(map.get(key) || 0) + amount` stored under `key`, a new key
      going to the end of the insertion order. */
  function AddTo(g: Groups, key: string, amount: JsNum): Groups
  {
    var prev := if key in g.sums then OrZero(g.sums[key]) else Finite(0.0);
    Groups(if key in g.sums then g.keys else g.keys + [key], g.sums[key := JsAdd(prev, amount)])
  }

  /** The sums after all the entries: each distinct key once, in order of
      first appearance. */
  function Fold(entries: seq<(string, JsNum)>): (g: Groups)
    ensures WellFormed(g)
  {
    if |entries| == 0 then Groups([], map[])
    else
      var n := |entries| - 1;
      AddTo(Fold(entries[..n]), entries[n].0, entries[n].1)
  }

  /** The keys come out once each, in order of first appearance. */
  lemma {:induction false} FoldKeys(entries: seq<(string, JsNum)>)
    ensures Fold(entries).keys == Dedup(Firsts(entries))
  {
    if |entries| > 0 {
      var n := |entries| - 1;
      assert Firsts(entries)[..n] == Firsts(entries[..n]);
      FoldKeys(entries[..n]);
    }
  }

  /** The `forEach` loop that fills the Map. */
  method Accumulate(entries: seq<(string, JsNum)>) returns (g: Groups)
    ensures g == Fold(entries)
  {
    g := Groups([], map[]);
    for i := 0 to |entries|
      invariant g == Fold(entries[..i])
    {
      assert entries[..i + 1][..i] == entries[..i];
      var (key, amount) := entries[i];
      var prev := if key in g.sums then OrZero(g.sums[key]) else Finite(0.0);
      if key !in g.sums {
        g := g.(keys := g.keys + [key]);
      }
      g := g.(sums := g.sums[key := JsAdd(prev, amount)]);
    }
    assert entries[..|entries|] == entries;
  }

  predicate AllFinite(entries: seq<(string, JsNum)>)
  {
    forall i :: 0 <= i < |entries| ==> entries[i].1.Finite?
  }

  /** The amounts recorded under one key, in order. */
  function AmountsOf(entries: seq<(string, JsNum)>, key: string): (xs: seq<real>)
    requires AllFinite(entries)
  {
    if |entries| == 0 then []
    else
      var n := |entries| - 1;
      AmountsOf(entries[..n], key) + (if entries[n].0 == key then [entries[n].1.r] else [])
  }

  /** The amounts of all entries, in order. */
  function AllAmounts(entries: seq<(string, JsNum)>): (xs: seq<real>)
    requires AllFinite(entries)
    ensures |xs| == |entries| && forall i :: 0 <= i < |entries| ==> xs[i] == entries[i].1.r
  {
    seq(|entries|, i requires 0 <= i < |entries| => entries[i].1.r)
  }

  /** With finite amounts every key holds exactly the sum of its amounts. */
  lemma FoldSums(entries: seq<(string, JsNum)>)
    requires AllFinite(entries)
    ensures forall k :: k in Fold(entries).sums ==> Fold(entries).sums[k] == Finite(Sum(AmountsOf(entries, k)))
  {
    forall k | k in Fold(entries).sums
      ensures Fold(entries).sums[k] == Finite(Sum(AmountsOf(entries, k)))
    {
      FoldSumOf(entries, k);
    }
  }

  lemma {:induction false} FoldSumOf(entries: seq<(string, JsNum)>, k: string)
    requires AllFinite(entries)
    requires k in Fold(entries).sums
    ensures Fold(entries).sums[k] == Finite(Sum(AmountsOf(entries, k)))
  {
    var n := |entries| - 1;
    var before := entries[..n];
    var key, amount := entries[n].0, entries[n].1;
    var g := Fold(before);
    assert Fold(entries) == AddTo(g, key, amount);
    var xs := AmountsOf(before, k);
    if k == key {
      assert AmountsOf(entries, k) == xs + [amount.r];
      SumAppend(xs, [amount.r]);
      assert Sum([amount.r]) == amount.r by { assert [amount.r][..0] == []; }
      var prev := if k in g.sums then OrZero(g.sums[k]) else Finite(0.0);
      if k in g.sums {
        FoldSumOf(before, k);
        assert prev == Finite(Sum(xs));
      } else {
        AmountsOfAbsent(before, k);
        assert prev == Finite(Sum(xs));
      }
      assert Fold(entries).sums[k] == JsAdd(prev, amount);
    } else {
      assert AmountsOf(entries, k) == xs + [];
      assert xs + [] == xs;
      assert Fold(entries).sums[k] == g.sums[k];
      FoldSumOf(before, k);
    }
  }

  /** A key that was never added has no amounts. */
  lemma {:induction false} AmountsOfAbsent(entries: seq<(string, JsNum)>, key: string)
    requires AllFinite(entries)
    requires key !in Fold(entries).sums
    ensures AmountsOf(entries, key) == []
  {
    if |entries| > 0 {
      AmountsOfAbsent(entries[..|entries| - 1], key);
    }
  }

  /** The sum over the keys of a map's values. */
  function SumOver(keys: seq<string>, sums: map<string, JsNum>): real
    requires forall k :: k in keys ==> k in sums && sums[k].Finite?
  {
    if |keys| == 0 then 0.0
    else SumOver(keys[..|keys| - 1], sums) + sums[keys[|keys| - 1]].r
  }

  /** With finite amounts the sums, added over all keys, give back the
      total of all the amounts: grouping loses and duplicates nothing. */
  lemma {:induction false} FoldTotal(entries: seq<(string, JsNum)>)
    requires AllFinite(entries)
    ensures forall k :: k in Fold(entries).keys ==> k in Fold(entries).sums && Fold(entries).sums[k].Finite?
    ensures SumOver(Fold(entries).keys, Fold(entries).sums) == Sum(AllAmounts(entries))
  {
    FoldSums(entries);
    if |entries| > 0 {
      var n := |entries| - 1;
      var before := entries[..n];
      FoldTotal(before);
      assert AllAmounts(entries)[..n] == AllAmounts(before);
      AddToTotal(Fold(before), entries[n].0, entries[n].1);
    }
  }

  /** One step of the fold adds its amount to the sum over the keys. */
  lemma AddToTotal(g: Groups, key: string, amount: JsNum)
    requires WellFormed(g) && amount.Finite?
    requires forall k :: k in g.keys ==> k in g.sums && g.sums[k].Finite?
    ensures var h := AddTo(g, key, amount);
      (forall k :: k in h.keys ==> k in h.sums && h.sums[k].Finite?)
      && SumOver(h.keys, h.sums) == SumOver(g.keys, g.sums) + amount.r
  {
    var prev := if key in g.sums then OrZero(g.sums[key]) else Finite(0.0);
    var v := JsAdd(prev, amount);
    if key in g.sums {
      SumOverUpdate(g.keys, g.sums, key, v);
    } else {
      var ks := g.keys + [key];
      assert ks[..|g.keys|] == g.keys;
      SumOverFresh(g.keys, g.sums, key, v);
    }
  }

  /** Replacing the value of one listed key changes the sum by the
      difference. */
  lemma {:induction false} SumOverUpdate(keys: seq<string>, sums: map<string, JsNum>, key: string, v: JsNum)
    requires NoDuplicates(keys) && key in keys && v.Finite?
    requires forall k :: k in keys ==> k in sums && sums[k].Finite?
    ensures SumOver(keys, sums[key := v]) == SumOver(keys, sums) - sums[key].r + v.r
  {
    var n := |keys| - 1;
    if keys[n] == key {
      assert key !in keys[..n];
      SumOverFresh(keys[..n], sums, key, v);
    } else {
      assert key in keys[..n];
      SumOverUpdate(keys[..n], sums, key, v);
    }
  }

  /** Storing a value under a key outside the list does not change the sum
      over the list. */
  lemma {:induction false} SumOverFresh(keys: seq<string>, sums: map<string, JsNum>, key: string, v: JsNum)
    requires key !in keys && v.Finite?
    requires forall k :: k in keys ==> k in sums && sums[k].Finite?
    ensures SumOver(keys, sums[key := v]) == SumOver(keys, sums)
  {
    if |keys| > 0 {
      SumOverFresh(keys[..|keys| - 1], sums, key, v);
    }
  }

  /** The sum over the keys does not depend on their order. */
  lemma {:induction false} SumOverPermutation(a: seq<string>, b: seq<string>, sums: map<string, JsNum>)
    requires multiset(a) == multiset(b)
    requires forall k :: k in a ==> k in sums && sums[k].Finite?
    ensures forall k :: k in b ==> k in sums && sums[k].Finite?
    ensures SumOver(a, sums) == SumOver(b, sums)
    decreases |a|
  {
    forall k | k in b
      ensures k in sums && sums[k].Finite?
    {
      assert k in multiset(b);
    }
    if |a| > 0 {
      var n := |a| - 1;
      var x := a[n];
      assert x in multiset(b);
      var j :| 0 <= j < |b| && b[j] == x;
      var rest := b[..j] + b[j + 1..];
      RemoveOne(a, b, j);
      SumOverPermutation(a[..n], rest, sums);
      SumOverRemove(b, j, sums);
    }
  }

  /** Taking the last key of `a` out of `a` and one of its occurrences out
      of `b` keeps the two multisets equal. */
  lemma RemoveOne(a: seq<string>, b: seq<string>, j: nat)
    requires multiset(a) == multiset(b) && |a| > 0 && j < |b| && b[j] == a[|a| - 1]
    ensures multiset(a[..|a| - 1]) == multiset(b[..j] + b[j + 1..])
  {
    var n, x := |a| - 1, a[|a| - 1];
    assert a == a[..n] + [x];
    assert b == b[..j] + [x] + b[j + 1..];
    assert multiset(a[..n]) == multiset(a) - multiset{x};
    assert multiset(b[..j] + b[j + 1..]) == multiset(b) - multiset{x};
  }

  /** The sum over the keys is the sum without one of them plus its value. */
  lemma SumOverRemove(b: seq<string>, j: nat, sums: map<string, JsNum>)
    requires j < |b|
    requires forall k :: k in b ==> k in sums && sums[k].Finite?
    ensures SumOver(b, sums) == SumOver(b[..j] + b[j + 1..], sums) + sums[b[j]].r
  {
    var x := b[j];
    assert b == b[..j] + ([x] + b[j + 1..]);
    SumOverAppend(b[..j], [x] + b[j + 1..], sums);
    SumOverAppend([x], b[j + 1..], sums);
    SumOverAppend(b[..j], b[j + 1..], sums);
    assert SumOver([x], sums) == sums[x].r by {
      assert [x][..0] == [];
    }
  }

  lemma {:induction false} SumOverAppend(a: seq<string>, b: seq<string>, sums: map<string, JsNum>)
    requires forall k :: k in a + b ==> k in sums && sums[k].Finite?
    ensures SumOver(a + b, sums) == SumOver(a, sums) + SumOver(b, sums)
    decreases |b|
  {
    if |b| == 0 {
      assert a + b == a;
    } else {
      var n := |b| - 1;
      assert (a + b)[..|a + b| - 1] == a + b[..n];
      SumOverAppend(a, b[..n], sums);
    }
  }
}
