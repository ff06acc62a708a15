/** Lists in which nothing is repeated. */
module Counting {

  ghost predicate Distinct<T>(xs: seq<T>) {
    forall i, j :: 0 <= i < j < |xs| ==> xs[i] != xs[j]
  }

  lemma {:induction false} DistinctCounts<T>(xs: seq<T>)
    requires Distinct(xs)
    ensures forall x :: multiset(xs)[x] <= 1
  {
    if xs != [] {
      DistinctCounts(xs[..|xs| - 1]);
      assert xs == xs[..|xs| - 1] + [xs[|xs| - 1]];
      assert xs[|xs| - 1] !in xs[..|xs| - 1];
      assert xs[|xs| - 1] !in multiset(xs[..|xs| - 1]);
    }
  }

  lemma {:induction false} CountsDistinct<T>(xs: seq<T>)
    requires forall x :: multiset(xs)[x] <= 1
    ensures Distinct(xs)
  {
    if xs != [] {
      var before, x := xs[..|xs| - 1], xs[|xs| - 1];
      assert xs == before + [x];
      assert multiset(xs) == multiset(before) + multiset{x};
      assert multiset(xs)[x] == multiset(before)[x] + 1;
      assert x !in multiset(before);
      assert x !in before;
      forall y ensures multiset(before)[y] <= 1 {
        assert multiset(xs)[y] <= 1;
      }
      CountsDistinct(before);
    }
  }

  lemma FewerCounts<T>(xs: seq<T>, ys: seq<T>)
    requires multiset(xs) <= multiset(ys) && forall y :: multiset(ys)[y] <= 1
    ensures Distinct(xs)
  {
    forall x ensures multiset(xs)[x] <= 1 {
      assert multiset(xs)[x] <= multiset(ys)[x];
    }
    CountsDistinct(xs);
  }

  lemma SameDistinct<T>(xs: seq<T>, ys: seq<T>)
    requires Distinct(xs) && Distinct(ys) && forall x :: x in xs <==> x in ys
    ensures multiset(xs) == multiset(ys)
  {
    DistinctCounts(xs);
    DistinctCounts(ys);
    forall x ensures multiset(xs)[x] == multiset(ys)[x] {
      assert x in xs <==> x in multiset(xs);
      assert x in ys <==> x in multiset(ys);
    }
  }

  /** The places below a mark that are chosen, in order. */
  ghost predicate Places(places: seq<nat>, n: nat, chosen: nat -> bool) {
    && (forall j, k :: 0 <= j < k < |places| ==> places[j] < places[k])
    && (forall i: nat :: i in places <==> i < n && chosen(i))
  }

  /** A list of what stands at the chosen places, in order. */
  ghost predicate Lists<T>(out: seq<T>, places: seq<nat>, n: nat, chosen: nat -> bool, at: nat -> T) {
    Places(places, n, chosen) && |out| == |places| && forall j :: 0 <= j < |out| ==>
                                                                    places[j] < n && out[j] == at(places[j])
  }

  lemma ListsNone<T>(chosen: nat -> bool, at: nat -> T)
    ensures Lists([], [], 0, chosen, at)
  {
  }

  lemma ListsNext<T>(out: seq<T>, places: seq<nat>, n: nat, chosen: nat -> bool, at: nat -> T)
    requires Lists(out, places, n, chosen, at)
    ensures chosen(n) ==> Lists(out + [at(n)], places + [n], n + 1, chosen, at)
    ensures !chosen(n) ==> Lists(out, places, n + 1, chosen, at)
  {
    PlacesNext(places, n, chosen);
  }

  lemma PlacesNext(places: seq<nat>, n: nat, chosen: nat -> bool)
    requires Places(places, n, chosen)
    ensures Places(if chosen(n) then places + [n] else places, n + 1, chosen)
  {
    forall j | 0 <= j < |places| ensures places[j] < n {
      assert places[j] in places;
    }
    forall i: nat ensures i in places + [n] <==> i in places || i == n {
    }
  }
}
