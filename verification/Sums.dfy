/** Sums over sequences, and the laws the ledger proofs use. */
module Sums {

  function Sum<T>(xs: seq<T>, f: T -> int): int
  {
    if xs == [] then 0 else Sum(xs[..|xs| - 1], f) + f(xs[|xs| - 1])
  }

  lemma SumAppend<T>(xs: seq<T>, x: T, f: T -> int)
    ensures Sum(xs + [x], f) == Sum(xs, f) + f(x)
  {
    assert (xs + [x])[..|xs|] == xs;
  }

  lemma {:induction false} SumConcat<T>(xs: seq<T>, ys: seq<T>, f: T -> int)
    ensures Sum(xs + ys, f) == Sum(xs, f) + Sum(ys, f)
  {
    if ys == [] {
      assert xs + ys == xs;
    } else {
      var n := |ys| - 1;
      SumConcat(xs, ys[..n], f);
      assert xs + ys == (xs + ys[..n]) + [ys[n]];
      SumAppend(xs + ys[..n], ys[n], f);
    }
  }

  lemma SumCons<T>(x: T, xs: seq<T>, f: T -> int)
    ensures Sum([x] + xs, f) == f(x) + Sum(xs, f)
  {
    SumConcat([x], xs, f);
    SumAppend([], x, f);
    assert [] + [x] == [x];
  }

  lemma {:induction false} SumUpdate<T>(xs: seq<T>, i: nat, x: T, f: T -> int)
    requires i < |xs|
    ensures Sum(xs[i := x], f) == Sum(xs, f) - f(xs[i]) + f(x)
  {
    var n := |xs| - 1;
    if i == n {
      assert xs[i := x][..n] == xs[..n];
    } else {
      assert xs[i := x][..n] == xs[..n][i := x];
      SumUpdate(xs[..n], i, x, f);
    }
  }

  lemma {:induction false} SumRemove<T>(xs: seq<T>, i: nat, f: T -> int)
    requires i < |xs|
    ensures Sum(xs[..i] + xs[i + 1..], f) == Sum(xs, f) - f(xs[i])
  {
    assert xs == xs[..i] + ([xs[i]] + xs[i + 1..]);
    SumConcat(xs[..i], [xs[i]] + xs[i + 1..], f);
    SumConcat([xs[i]], xs[i + 1..], f);
    SumConcat(xs[..i], xs[i + 1..], f);
    SumAppend([], xs[i], f);
    assert [] + [xs[i]] == [xs[i]];
  }

  /** Two weights that agree on every element give the same sum. */
  lemma {:induction false} SumSame<T>(xs: seq<T>, f: T -> int, g: T -> int)
    requires forall x :: x in xs ==> f(x) == g(x)
    ensures Sum(xs, f) == Sum(xs, g)
  {
    if xs != [] {
      SumSame(xs[..|xs| - 1], f, g);
    }
  }

  lemma {:induction false} SumPlus<T>(xs: seq<T>, f: T -> int, g: T -> int, h: T -> int)
    requires forall x :: x in xs ==> h(x) == f(x) + g(x)
    ensures Sum(xs, h) == Sum(xs, f) + Sum(xs, g)
  {
    if xs != [] {
      SumPlus(xs[..|xs| - 1], f, g, h);
    }
  }

  lemma {:induction false} SumZero<T>(xs: seq<T>, f: T -> int)
    requires forall x :: x in xs ==> f(x) == 0
    ensures Sum(xs, f) == 0
  {
    if xs != [] {
      SumZero(xs[..|xs| - 1], f);
    }
  }

  /** A sum does not depend on the order of its terms. */
  lemma {:induction false} SumPermutation<T>(xs: seq<T>, ys: seq<T>, f: T -> int)
    requires multiset(xs) == multiset(ys)
    ensures Sum(xs, f) == Sum(ys, f)
  {
    if xs == [] {
      assert |multiset(ys)| == 0;
      assert ys == [];
    } else {
      var n := |xs| - 1;
      var x := xs[n];
      assert xs == xs[..n] + [x];
      assert x in multiset(ys);
      var i :| 0 <= i < |ys| && ys[i] == x;
      assert ys == ys[..i] + [x] + ys[i + 1..];
      assert multiset(ys[..i] + ys[i + 1..]) == multiset(ys) - multiset{x};
      assert multiset(xs[..n]) == multiset(xs) - multiset{x};
      SumPermutation(xs[..n], ys[..i] + ys[i + 1..], f);
      SumRemove(ys, i, f);
    }
  }

  /** Exactly one element carries the weight. */
  lemma {:induction false} SumSingle<T>(xs: seq<T>, i: nat, f: T -> int)
    requires i < |xs|
    requires forall j :: 0 <= j < |xs| && j != i ==> f(xs[j]) == 0
    ensures Sum(xs, f) == f(xs[i])
  {
    var n := |xs| - 1;
    if i == n {
      SumZero(xs[..n], f);
    } else {
      SumSingle(xs[..n], i, f);
    }
  }

  // ------------------------------------------------------------------ sums by key

  /** The weight of the elements with one key. */
  function AtKey<T, K(==)>(key: T -> K, k: K, f: T -> int): T -> int {
    x => if key(x) == k then f(x) else 0
  }

  /** The weight of the elements whose keys are chosen. */
  function AtKeys<T, K>(key: T -> K, chosen: K -> bool, f: T -> int): T -> int {
    x => if chosen(key(x)) then f(x) else 0
  }

  function Without<T, K(==)>(xs: seq<T>, key: T -> K, k: K): (r: seq<T>)
    ensures |r| <= |xs|
    ensures forall x :: x in r ==> key(x) != k
  {
    if xs == [] then []
    else
      var before := Without(xs[..|xs| - 1], key, k);
      if key(xs[|xs| - 1]) == k then before else before + [xs[|xs| - 1]]
  }

  lemma {:induction false} SumWithout<T, K>(xs: seq<T>, key: T -> K, k: K, f: T -> int)
    ensures Sum(Without(xs, key, k), f) == Sum(xs, f) - Sum(xs, AtKey(key, k, f))
  {
    if xs != [] {
      var n := |xs| - 1;
      SumWithout(xs[..n], key, k, f);
      SumAppend(Without(xs[..n], key, k), xs[n], f);
    }
  }

  lemma WithoutOther<T, K>(xs: seq<T>, key: T -> K, k: K, other: K, f: T -> int)
    requires k != other
    ensures Sum(Without(xs, key, k), AtKey(key, other, f)) == Sum(xs, AtKey(key, other, f))
  {
    SumWithout(xs, key, k, AtKey(key, other, f));
    SumZero(xs, AtKey(key, k, AtKey(key, other, f)));
  }

  /** When each chosen key's elements cancel, all the chosen elements do. */
  lemma {:induction false} CancelByKey<T, K(!new)>(xs: seq<T>, key: T -> K, chosen: K -> bool, f: T -> int)
    requires forall k :: chosen(k) ==> Sum(xs, AtKey(key, k, f)) == 0
    ensures Sum(xs, AtKeys(key, chosen, f)) == 0
    decreases |xs|
  {
    if xs != [] {
      var n := |xs| - 1;
      var k := key(xs[n]);
      var rest := Without(xs, key, k);
      assert |rest| <= |xs[..n]|;
      forall other | chosen(other) ensures Sum(rest, AtKey(key, other, f)) == 0 {
        if other == k {
          SumZero(rest, AtKey(key, k, f));
        } else {
          WithoutOther(xs, key, k, other, f);
        }
      }
      CancelByKey(rest, key, chosen, f);
      SumWithout(xs, key, k, AtKeys(key, chosen, f));
      if chosen(k) {
        SumSame(xs, AtKey(key, k, AtKeys(key, chosen, f)), AtKey(key, k, f));
      } else {
        SumZero(xs, AtKey(key, k, AtKeys(key, chosen, f)));
      }
    }
  }
}
