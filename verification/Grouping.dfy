/** Things gathered by the reporting period they fall in. */
module Grouping {
  import opened Sums
  import opened Calendar

  datatype Group<T> = Group(period: Period, items: seq<T>)

  /** `out.entry(period).or_default().push(x)`, groups kept in the order of their first days. */
  function Push<T>(groups: seq<Group<T>>, period: Period, x: T): seq<Group<T>> {
    if groups == [] then [Group(period, [x])]
    else if groups[0].period == period then [Group(period, groups[0].items + [x])] + groups[1..]
    else if period.start < groups[0].period.start then [Group(period, [x])] + groups
    else [groups[0]] + Push(groups[1..], period, x)
  }

  function GroupBy<T>(xs: seq<T>, periodOf: T -> Period): seq<Group<T>> {
    if xs == [] then [] else Push(GroupBy(xs[..|xs| - 1], periodOf), periodOf(xs[|xs| - 1]), xs[|xs| - 1])
  }

  /** What falls in one period, in order. */
  function Within<T>(xs: seq<T>, periodOf: T -> Period, period: Period): seq<T> {
    if xs == [] then []
    else
      Within(xs[..|xs| - 1], periodOf, period)
      + if periodOf(xs[|xs| - 1]) == period then [xs[|xs| - 1]] else []
  }

  function Grouped<T>(groups: seq<Group<T>>): seq<T> {
    if groups == [] then [] else groups[0].items + Grouped(groups[1..])
  }

  /** Periods that begin on one day are one period. */
  ghost predicate FirstDaysTell<T>(xs: seq<T>, periodOf: T -> Period) {
    forall x, y :: x in xs && y in xs && periodOf(x).start == periodOf(y).start ==> periodOf(x) == periodOf(y)
  }

  ghost predicate GroupsOf<T>(groups: seq<Group<T>>, xs: seq<T>, periodOf: T -> Period) {
    && (forall i, j :: 0 <= i < j < |groups| ==> groups[i].period.start < groups[j].period.start)
    && (forall g :: g in groups ==> g.items != [] && g.items == Within(xs, periodOf, g.period))
    && (forall x :: x in xs ==> exists g :: g in groups && g.period == periodOf(x))
    && (forall g :: g in groups ==> exists x :: x in xs && periodOf(x) == g.period)
  }

  /** One more element joins the group of its period, or begins one. */
  ghost predicate Gained<T>(groups: seq<Group<T>>, g: Group<T>, x: T) {
    || (exists h :: h in groups && h.period == g.period && g.items == h.items + [x])
    || (g.items == [x] && forall h :: h in groups ==> h.period != g.period)
  }

  /** What one more element does to the groups, told by their periods. */
  ghost predicate Pushed<T>(groups: seq<Group<T>>, after: seq<Group<T>>, period: Period, x: T) {
    && (forall i, j :: 0 <= i < j < |after| ==> after[i].period.start < after[j].period.start)
    && (forall g :: g in after && g.period == period ==> Gained(groups, g, x))
    && (forall g :: g in after && g.period != period ==> g in groups)
    && (forall g :: g in groups && g.period != period ==> g in after)
    && (exists g :: g in after && g.period == period)
  }

  lemma {:induction false} PushGroups<T>(groups: seq<Group<T>>, period: Period, x: T)
    requires Ascending(groups)
    requires forall g :: g in groups && g.period.start == period.start ==> g.period == period
    ensures Pushed(groups, Push(groups, period, x), period, x)
  {
    if groups == [] {
      assert Group(period, [x]) in Push(groups, period, x);
    } else {
      hide Pushed, Ascending;
      var head, rest := groups[0], groups[1..];
      assert groups == [head] + rest && head in groups;
      AscendingRest(head, rest);
      if head.period == period {
        PushedHere(head, rest, period, x);
      } else if period.start < head.period.start {
        PushedAhead(groups, period, x);
      } else {
        PushGroups(rest, period, x);
        PushedBehind(head, rest, Push(rest, period, x), period, x);
      }
    }
  }

  ghost predicate Ascending<T>(groups: seq<Group<T>>) {
    forall i, j :: 0 <= i < j < |groups| ==> groups[i].period.start < groups[j].period.start
  }

  lemma AscendingRest<T>(head: Group<T>, rest: seq<Group<T>>)
    requires Ascending([head] + rest)
    ensures Ascending(rest) && forall g :: g in rest ==> head.period.start < g.period.start
  {
    var groups := [head] + rest;
    forall g | g in rest ensures head.period.start < g.period.start {
      var k :| 0 <= k < |rest| && rest[k] == g;
      assert groups[k + 1] == g && groups[0] == head;
    }
    forall i, j | 0 <= i < j < |rest| ensures rest[i].period.start < rest[j].period.start {
      assert groups[i + 1] == rest[i] && groups[j + 1] == rest[j];
    }
  }

  lemma PushedHere<T>(head: Group<T>, rest: seq<Group<T>>, period: Period, x: T)
    requires Ascending([head] + rest) && head.period == period
    ensures Pushed([head] + rest, [head.(items := head.items + [x])] + rest, period, x)
  {
    var groups, after := [head] + rest, [head.(items := head.items + [x])] + rest;
    assert forall i :: 0 <= i < |groups| ==> after[i].period == groups[i].period;
    assert groups[0] in groups && after[0] in after;
    forall g | g in rest ensures g.period != period && g in groups && g in after {
      var k :| 0 <= k < |rest| && rest[k] == g;
      assert groups[k + 1] == g && after[k + 1] == g;
    }
    assert forall g :: g in groups <==> g == head || g in rest;
    assert forall g :: g in after <==> g == after[0] || g in rest;
  }

  lemma PushedAhead<T>(groups: seq<Group<T>>, period: Period, x: T)
    requires Ascending(groups) && groups != [] && period.start < groups[0].period.start
    ensures Pushed(groups, [Group(period, [x])] + groups, period, x)
  {
    var after := [Group(period, [x])] + groups;
    assert after[0] in after;
    assert forall g :: g in after <==> g == after[0] || g in groups;
    forall g | g in groups ensures period.start < g.period.start {
      var k :| 0 <= k < |groups| && groups[k] == g;
    }
  }

  /** A group whose period is over before stays ahead of them all. */
  lemma PushedBehind<T>(head: Group<T>, groups: seq<Group<T>>, after: seq<Group<T>>, period: Period, x: T)
    requires Pushed(groups, after, period, x) && head.period != period && head.period.start < period.start
    requires forall g :: g in groups ==> head.period.start < g.period.start
    ensures Pushed([head] + groups, [head] + after, period, x)
  {
    var more, all := [head] + groups, [head] + after;
    forall g ensures (g in more <==> g == head || g in groups) && (g in all <==> g == head || g in after) {
      InCons(head, groups, g);
      InCons(head, after, g);
    }
    forall i, j | 0 <= i < j < |all| ensures all[i].period.start < all[j].period.start {
      assert all[j] == after[j - 1] && after[j - 1] in after;
      assert i != 0 ==> all[i] == after[i - 1];
    }
    forall g | g in all && g.period == period ensures Gained(more, g, x) {
      assert Gained(groups, g, x);
    }
  }

  lemma InCons<T>(head: T, rest: seq<T>, x: T)
    ensures x in [head] + rest <==> x == head || x in rest
  {
  }

  lemma {:induction false} NoneWithin<T>(xs: seq<T>, periodOf: T -> Period, period: Period)
    requires forall x :: x in xs ==> periodOf(x) != period
    ensures Within(xs, periodOf, period) == []
  {
    if xs != [] {
      NoneWithin(xs[..|xs| - 1], periodOf, period);
    }
  }

  lemma {:induction false} WithinOnly<T>(xs: seq<T>, periodOf: T -> Period, period: Period)
    ensures forall x :: x in Within(xs, periodOf, period) <==> x in xs && periodOf(x) == period
    ensures multiset(Within(xs, periodOf, period)) <= multiset(xs)
  {
    if xs != [] {
      WithinOnly(xs[..|xs| - 1], periodOf, period);
      assert xs == xs[..|xs| - 1] + [xs[|xs| - 1]];
    }
  }

  lemma WithinSnoc<T>(xs: seq<T>, x: T, periodOf: T -> Period, p: Period)
    ensures Within(xs + [x], periodOf, p) == if periodOf(x) == p then Within(xs, periodOf, p) + [x]
            else Within(xs, periodOf, p)
  {
    assert (xs + [x])[..|xs|] == xs;
    assert Within(xs, periodOf, p) + [] == Within(xs, periodOf, p);
  }

  lemma PushedHoldsItsPeriods<T>(before: seq<Group<T>>, xs: seq<T>, periodOf: T -> Period, x: T, after: seq<Group<T>>,
                                 g: Group<T>)
    requires GroupsOf(before, xs, periodOf) && Pushed(before, after, periodOf(x), x) && g in after
    ensures g.items != [] && g.items == Within(xs + [x], periodOf, g.period)
  {
    hide Within;
    WithinSnoc(xs, x, periodOf, g.period);
    if g.period == periodOf(x) && forall h :: h in before ==> h.period != g.period {
      forall y | y in xs ensures periodOf(y) != g.period {
        var h :| h in before && h.period == periodOf(y);
      }
      NoneWithin(xs, periodOf, g.period);
    }
  }

  /** One more element keeps the groups what they should be. */
  lemma {:induction false} PushKeepsGroups<T>(before: seq<Group<T>>, xs: seq<T>, periodOf: T -> Period, x: T)
    requires GroupsOf(before, xs, periodOf) && FirstDaysTell(xs + [x], periodOf)
    ensures GroupsOf(Push(before, periodOf(x), x), xs + [x], periodOf)
  {
    hide Within, Push;
    var period, more := periodOf(x), xs + [x];
    forall g | g in before && g.period.start == period.start ensures g.period == period {
      var d :| d in xs && periodOf(d) == g.period;
      assert d in more && x in more;
    }
    PushGroups(before, period, x);
    var after := Push(before, period, x);
    forall g | g in after ensures g.items != [] && g.items == Within(more, periodOf, g.period) {
      PushedHoldsItsPeriods(before, xs, periodOf, x, after, g);
    }
    forall d | d in more ensures exists g :: g in after && g.period == periodOf(d) {
      if d in xs && periodOf(d) != period {
        var g :| g in before && g.period == periodOf(d);
        assert g in after;
      }
    }
    forall g | g in after ensures exists d :: d in more && periodOf(d) == g.period {
      if g.period == period {
        assert x in more;
      } else {
        var d :| d in xs && periodOf(d) == g.period;
        assert d in more;
      }
    }
  }

  /** Each group holds exactly what falls in its period, in order; nothing is left out. */
  lemma {:induction false} GroupingIsComplete<T>(xs: seq<T>, periodOf: T -> Period)
    requires FirstDaysTell(xs, periodOf)
    ensures GroupsOf(GroupBy(xs, periodOf), xs, periodOf)
  {
    if xs != [] {
      var n := |xs| - 1;
      assert xs[..n] + [xs[n]] == xs;
      assert forall x :: x in xs[..n] ==> x in xs;
      GroupingIsComplete(xs[..n], periodOf);
      PushKeepsGroups(GroupBy(xs[..n], periodOf), xs[..n], periodOf, xs[n]);
    }
  }

  lemma {:induction false} PushSpreads<T>(groups: seq<Group<T>>, period: Period, x: T)
    ensures multiset(Grouped(Push(groups, period, x))) == multiset(Grouped(groups)) + multiset{x}
  {
    var after := Push(groups, period, x);
    if groups != [] {
      if groups[0].period == period {
        assert after[1..] == groups[1..];
      } else if period.start < groups[0].period.start {
        assert after[1..] == groups;
      } else {
        PushSpreads(groups[1..], period, x);
        assert after[1..] == Push(groups[1..], period, x);
      }
    }
  }

  /** Grouping loses and repeats nothing. */
  lemma {:induction false} GroupingSpreads<T>(xs: seq<T>, periodOf: T -> Period)
    ensures multiset(Grouped(GroupBy(xs, periodOf))) == multiset(xs)
  {
    if xs != [] {
      var n := |xs| - 1;
      GroupingSpreads(xs[..n], periodOf);
      PushSpreads(GroupBy(xs[..n], periodOf), periodOf(xs[n]), xs[n]);
      assert xs == xs[..n] + [xs[n]];
    }
  }

  /** Whatever is summed over a group's elements, the groups come to what all of them do. */
  function GroupSums<T>(groups: seq<Group<T>>, f: T -> int): int {
    Sum(groups, (g: Group<T>) => Sum(g.items, f))
  }

  lemma {:induction false} GroupedAddsUp<T>(groups: seq<Group<T>>, f: T -> int)
    ensures GroupSums(groups, f) == Sum(Grouped(groups), f)
  {
    if groups != [] {
      GroupedAddsUp(groups[1..], f);
      assert groups == [groups[0]] + groups[1..];
      SumCons(groups[0], groups[1..], (g: Group<T>) => Sum(g.items, f));
      SumConcat(groups[0].items, Grouped(groups[1..]), f);
    }
  }

  lemma GroupsAddUp<T>(xs: seq<T>, periodOf: T -> Period, f: T -> int)
    ensures GroupSums(GroupBy(xs, periodOf), f) == Sum(xs, f)
  {
    GroupedAddsUp(GroupBy(xs, periodOf), f);
    GroupingSpreads(xs, periodOf);
    SumPermutation(Grouped(GroupBy(xs, periodOf)), xs, f);
  }
}
