/** Grouped sums: the total of the amounts of the elements with a given key,
    and the fact that summing the groups of a list of distinct keys that covers
    every element gives back the total of all amounts. */
module Sums {
  import opened Common

  /** A JavaScript object from string keys to numbers: its keys in insertion
      order (the order `Object.entries` lists them in) and its values. */
  datatype Totals = Totals(order: seq<string>, amounts: map<string, real>)

  /** The values of an object added up in the given key order. */
  function ValuesTotal(order: seq<string>, amounts: map<string, real>): real
    requires forall k :: k in order ==> k in amounts
    decreases |order|
  {
    if order == [] then 0.0 else amounts[order[0]] + ValuesTotal(order[1..], amounts)
  }

  /** The total of `amount(x)` over the elements, front to back. */
  function Total<T>(xs: seq<T>, amount: T -> real): real
    decreases |xs|
  {
    if xs == [] then 0.0 else Total(xs[..|xs| - 1], amount) + amount(xs[|xs| - 1])
  }

  /** The total of `amount(x)` over the elements whose key is `k`. */
  function SumFor<T, K(==)>(xs: seq<T>, key: T -> K, amount: T -> real, k: K): real
    decreases |xs|
  {
    if xs == [] then 0.0
    else SumFor(xs[..|xs| - 1], key, amount, k) + (if key(xs[|xs| - 1]) == k then amount(xs[|xs| - 1]) else 0.0)
  }

  /** The group totals of the keys `ks`, added up. */
  function SumOver<T, K(==)>(ks: seq<K>, xs: seq<T>, key: T -> K, amount: T -> real): real
    decreases |ks|
  {
    if ks == [] then 0.0 else SumFor(xs, key, amount, ks[0]) + SumOver(ks[1..], xs, key, amount)
  }

  lemma SumForSnoc<T, K>(xs: seq<T>, x: T, key: T -> K, amount: T -> real, k: K)
    ensures SumFor(xs + [x], key, amount, k) == SumFor(xs, key, amount, k) + (if key(x) == k then amount(x) else 0.0)
  {
    assert (xs + [x])[..|xs|] == xs;
  }

  lemma {:induction false} SumForAbsent<T, K>(xs: seq<T>, key: T -> K, amount: T -> real, k: K)
    requires forall i :: 0 <= i < |xs| ==> key(xs[i]) != k
    ensures SumFor(xs, key, amount, k) == 0.0
    decreases |xs|
  {
    if xs != [] {
      SumForAbsent(xs[..|xs| - 1], key, amount, k);
    }
  }

  lemma {:induction false} SumOverOfNothing<T, K>(ks: seq<K>, key: T -> K, amount: T -> real)
    ensures SumOver(ks, [], key, amount) == 0.0
    decreases |ks|
  {
    if ks != [] {
      SumOverOfNothing(ks[1..], key, amount);
    }
  }

  /** One more element adds its amount to the groups once, when its key is one
      of the (distinct) keys. */
  lemma {:induction false} SumOverSnoc<T, K>(ks: seq<K>, xs: seq<T>, x: T, key: T -> K, amount: T -> real)
    requires AllDistinct(ks)
    ensures SumOver(ks, xs + [x], key, amount) == SumOver(ks, xs, key, amount) + (if key(x) in ks then amount(x) else 0.0)
    decreases |ks|
  {
    if ks != [] {
      DistinctTail(ks);
      SumOverSnoc(ks[1..], xs, x, key, amount);
      SumForSnoc(xs, x, key, amount, ks[0]);
      assert key(x) in ks <==> key(x) == ks[0] || key(x) in ks[1..] by {
        assert ks == [ks[0]] + ks[1..];
      }
    }
  }

  /** Summing the groups of distinct keys that cover every element gives the
      total of all amounts: grouping neither loses nor double-counts. */
  lemma {:induction false} PartitionSum<T, K>(ks: seq<K>, xs: seq<T>, key: T -> K, amount: T -> real)
    requires AllDistinct(ks)
    requires forall i :: 0 <= i < |xs| ==> key(xs[i]) in ks
    ensures SumOver(ks, xs, key, amount) == Total(xs, amount)
    decreases |xs|
  {
    if xs == [] {
      SumOverOfNothing(ks, key, amount);
    } else {
      var init, last := xs[..|xs| - 1], xs[|xs| - 1];
      assert xs == init + [last];
      assert forall i :: 0 <= i < |init| ==> init[i] == xs[i];
      PartitionSum(ks, init, key, amount);
      SumOverSnoc(ks, init, last, key, amount);
    }
  }

  lemma {:induction false} SumOverAppend<T, K>(a: seq<K>, b: seq<K>, xs: seq<T>, key: T -> K, amount: T -> real)
    ensures SumOver(a + b, xs, key, amount) == SumOver(a, xs, key, amount) + SumOver(b, xs, key, amount)
    decreases |a|
  {
    if a != [] {
      assert (a + b)[1..] == a[1..] + b;
      SumOverAppend(a[1..], b, xs, key, amount);
    } else {
      assert a + b == b;
    }
  }
}
