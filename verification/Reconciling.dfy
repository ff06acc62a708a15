/** The two sides of the clearing account, paired on amount and nearest date, and what is left over. */
module Reconciling {
  import opened Options
  import opened Sums
  import opened Sorting
  import opened Counting
  import opened Calendar
  import opened Ledger
  import opened Texts

  const MATCH_WINDOW_DAYS := 90

  /** One line on the clearing account; the amount is its size. */
  datatype ClearingLine = ClearingLine(entry: EntryId, date: Date, amount: Cents)

  function DaysApart(a: Date, b: Date): nat {
    if a <= b then b - a else a - b
  }

  predicate Compatible(order: ClearingLine, line: ClearingLine) {
    order.amount == line.amount && DaysApart(order.date, line.date) <= MATCH_WINDOW_DAYS
  }

  /** Two lines can pair when they are for one amount and no more than ninety days apart. */
  lemma CompatibleMeans(order: ClearingLine, line: ClearingLine)
    ensures Compatible(order, line) <==> order.amount == line.amount && -90 <= order.date - line.date <= 90
    ensures DaysApart(order.date, line.date) == Magnitude(order.date - line.date)
  {
  }

  predicate LineOrder(a: ClearingLine, b: ClearingLine) {
    a.date < b.date || (a.date == b.date && a.entry <= b.entry)
  }

  function SumOf(lines: seq<ClearingLine>): int {
    Sum(lines, (l: ClearingLine) => l.amount)
  }

  // ------------------------------------------------------------------ the pairing, by position

  /** Of the first `n` feed lines, the free one that pairs with the order at the fewest days; the
      first of those that tie. */
  function BestBelow(feed: seq<ClearingLine>, used: set<nat>, order: ClearingLine, n: nat): (best: Option<nat>)
    requires n <= |feed|
    ensures best.Some? ==> best.value < n && best.value !in used && Compatible(order, feed[best.value])
    ensures best.None? ==> forall j :: 0 <= j < n && j !in used ==> !Compatible(order, feed[j])
    ensures best.Some? ==> forall j :: 0 <= j < n && j !in used && Compatible(order, feed[j]) ==>
              var near, far := DaysApart(order.date, feed[best.value].date), DaysApart(order.date, feed[j].date);
              near < far || (near == far && best.value <= j)
  {
    if n == 0 then None
    else
      var best := BestBelow(feed, used, order, n - 1);
      if n - 1 !in used && Compatible(order, feed[n - 1])
         && (best.None? || DaysApart(order.date, feed[n - 1].date) < DaysApart(order.date, feed[best.value].date))
      then Some(n - 1) else best
  }

  /** The feed lines a pairing has used. */
  function Used(choice: seq<Option<nat>>): set<nat> {
    set i | 0 <= i < |choice| && choice[i].Some? :: choice[i].value
  }

  /** `pair`: order by order, each takes the nearest free line of its amount. */
  function Greedy(orders: seq<ClearingLine>, feed: seq<ClearingLine>): (choice: seq<Option<nat>>)
    ensures |choice| == |orders|
  {
    if orders == [] then []
    else
      var before := Greedy(orders[..|orders| - 1], feed);
      before + [BestBelow(feed, Used(before), orders[|orders| - 1], |feed|)]
  }

  /** A pairing of some orders with feed lines of the same amount inside the window, no line twice. */
  ghost predicate ValidPairing(choice: seq<Option<nat>>, orders: seq<ClearingLine>, feed: seq<ClearingLine>) {
    && |choice| == |orders|
    && (forall i :: 0 <= i < |choice| && choice[i].Some? ==>
                      choice[i].value < |feed| && Compatible(orders[i], feed[choice[i].value]))
    && (forall i, j :: 0 <= i < j < |choice| && choice[i].Some? ==> choice[i] != choice[j])
  }

  function Matched(choice: seq<Option<nat>>): nat {
    if choice == [] then 0 else Matched(choice[..|choice| - 1]) + if choice[|choice| - 1].Some? then 1 else 0
  }

  /** The greedy pairing is valid, gives each order the nearest line still free when its turn comes,
      and leaves no order beside a free line it could still pair with. */
  lemma GreedyIsMaximal(orders: seq<ClearingLine>, feed: seq<ClearingLine>)
    ensures ValidPairing(Greedy(orders, feed), orders, feed)
    ensures forall i, j :: 0 <= i < |orders| && 0 <= j < |feed| && Compatible(orders[i], feed[j]) ==>
              var taken, mine := Used(Greedy(orders, feed)[..i]), Greedy(orders, feed)[i];
              j in taken
              || (mine.Some? && mine.value < |feed|
                  && DaysApart(orders[i].date, feed[mine.value].date) <= DaysApart(orders[i].date, feed[j].date))
  {
    var choice := Greedy(orders, feed);
    forall i | 0 <= i < |orders| ensures choice[i] == BestBelow(feed, Used(choice[..i]), orders[i], |feed|) {
      GreedyTurn(orders, feed, i);
    }
    hide Greedy, BestBelow, Compatible, DaysApart;
    forall i, j | 0 <= i < j < |choice| && choice[i].Some? ensures choice[i] != choice[j] {
      assert choice[..j][i] == choice[i] && choice[i].value in Used(choice[..j]);
    }
  }

  /** What an order takes is the best of what the orders before it left. */
  lemma {:induction false} GreedyTurn(orders: seq<ClearingLine>, feed: seq<ClearingLine>, i: nat)
    requires i < |orders|
    ensures Greedy(orders, feed)[i] == BestBelow(feed, Used(Greedy(orders, feed)[..i]), orders[i], |feed|)
  {
    hide BestBelow, Used;
    var n := |orders| - 1;
    assert Greedy(orders, feed)[..n] == Greedy(orders[..n], feed);
    if i < n {
      GreedyTurn(orders[..n], feed, i);
      assert Greedy(orders, feed)[..i] == Greedy(orders[..n], feed)[..i];
    }
  }

  lemma UsedSnoc(choice: seq<Option<nat>>, last: Option<nat>)
    ensures Used(choice + [last]) == Used(choice) + if last.Some? then {last.value} else {}
  {
    var more := choice + [last];
    forall j | j in Used(choice) ensures j in Used(more) {
      var i :| 0 <= i < |choice| && choice[i].Some? && choice[i].value == j;
      assert more[i] == choice[i];
    }
    if last.Some? {
      assert more[|choice|] == last;
    }
  }

  /** A valid pairing uses as many feed lines as it matches orders. */
  lemma {:induction false} UsedCounts(choice: seq<Option<nat>>)
    requires forall i, j :: 0 <= i < j < |choice| && choice[i].Some? ==> choice[i] != choice[j]
    ensures |Used(choice)| == Matched(choice)
  {
    if choice != [] {
      var n := |choice| - 1;
      UsedCounts(choice[..n]);
      assert choice == choice[..n] + [choice[n]];
      UsedSnoc(choice[..n], choice[n]);
    }
  }

  /** The part of a pairing that lands on given feed lines. */
  function Onto(choice: seq<Option<nat>>, lines: set<nat>): (r: seq<Option<nat>>)
    ensures |r| == |choice|
    ensures forall i :: 0 <= i < |choice| ==>
                          r[i] == if choice[i].Some? && choice[i].value in lines then choice[i] else None
  {
    seq(|choice|, i requires 0 <= i < |choice| =>
          if choice[i].Some? && choice[i].value in lines then choice[i] else None)
  }

  lemma {:induction false} MatchedSplits(any: seq<Option<nat>>, part: seq<Option<nat>>, own: seq<Option<nat>>)
    requires |any| == |part| == |own|
    requires forall i :: 0 <= i < |any| && any[i].Some? ==> part[i].Some? || own[i].Some?
    ensures Matched(any) <= Matched(part) + Matched(own)
  {
    if any != [] {
      MatchedSplits(any[..|any| - 1], part[..|any| - 1], own[..|any| - 1]);
    }
  }

  lemma SubsetIsSmaller<T>(a: set<T>, b: set<T>)
    requires a <= b
    ensures |a| <= |b|
  {
    assert b == a + (b - a);
  }

  /** No pairing matches more than twice what the greedy one does. */
  lemma GreedyIsHalfOptimal(orders: seq<ClearingLine>, feed: seq<ClearingLine>, any: seq<Option<nat>>)
    requires ValidPairing(any, orders, feed)
    ensures Matched(any) <= 2 * Matched(Greedy(orders, feed))
  {
    var own := Greedy(orders, feed);
    GreedyIsMaximal(orders, feed);
    var taken := Onto(any, Used(own));
    forall i | 0 <= i < |any| && any[i].Some? && own[i].None? ensures taken[i].Some? {
      assert any[i].value in Used(own[..i]);
      var k :| 0 <= k < i && own[..i][k].Some? && own[..i][k].value == any[i].value;
      assert own[k] == own[..i][k];
    }
    MatchedSplits(any, taken, own);
    UsedCounts(taken);
    UsedCounts(own);
    SubsetIsSmaller(Used(taken), Used(own));
  }

  /** The bound is met: a first order that takes the line the second one needed. */
  lemma HalfIsTight()
    ensures var orders := [ClearingLine(0, 0, 1299), ClearingLine(1, 100, 1299)];
            var feed := [ClearingLine(2, -85, 1299), ClearingLine(3, 10, 1299)];
            var any := [Some(0), Some(1)];
            && Greedy(orders, feed) == [Some(1), None]
            && ValidPairing(any, orders, feed) && Matched(any) == 2 * Matched(Greedy(orders, feed))
  {
    var orders := [ClearingLine(0, 0, 1299), ClearingLine(1, 100, 1299)];
    var feed := [ClearingLine(2, -85, 1299), ClearingLine(3, 10, 1299)];
    assert orders[..1][..0] == [] && orders[..1][0] == orders[0];
    assert Greedy(orders[..1], feed) == [Some(1)];
    assert Used([Some(1)]) == {1} by { UsedSnoc([], Some(1)); assert [] + [Some(1)] == [Some(1)]; }
    assert Greedy(orders, feed) == [Some(1), None];
    var own: seq<Option<nat>>, any: seq<Option<nat>> := [Some(1), None], [Some(0), Some(1)];
    assert own[..1] == [Some(1)] && own[..1][..0] == [] && Matched(own) == 1;
    assert any[..1] == [Some(0)] && any[..1][..0] == [] && Matched(any) == 2;
  }

  // ------------------------------------------------------------------ buckets by amount

  /** The free lines of one amount among the first `n`, in feed order. */
  function FreeBelow(feed: seq<ClearingLine>, used: set<nat>, amount: int, n: nat): seq<nat>
    requires n <= |feed|
  {
    if n == 0 then []
    else
      FreeBelow(feed, used, amount, n - 1)
      + if n - 1 !in used && feed[n - 1].amount == amount then [n - 1] else []
  }

  function LinesFrom(feed: seq<ClearingLine>, ids: seq<nat>): (lines: seq<ClearingLine>)
    requires forall i :: 0 <= i < |ids| ==> ids[i] < |feed|
    ensures |lines| == |ids| && forall i :: 0 <= i < |ids| ==> lines[i] == feed[ids[i]]
  {
    seq(|ids|, i requires 0 <= i < |ids| => feed[ids[i]])
  }

  lemma {:induction false} FreeAre(feed: seq<ClearingLine>, used: set<nat>, amount: int, n: nat)
    requires n <= |feed|
    ensures forall j: nat :: j in FreeBelow(feed, used, amount, n) <==> j < n && j !in used && feed[j].amount == amount
    ensures Rising(FreeBelow(feed, used, amount, n), n)
  {
    if n != 0 {
      FreeAre(feed, used, amount, n - 1);
      assert Rising(FreeBelow(feed, used, amount, n - 1), n - 1);
    }
  }

  /** Ever greater, and below `n`. */
  ghost predicate Rising(ids: seq<nat>, n: nat) {
    (forall i :: 0 <= i < |ids| ==> ids[i] < n) && forall i, k :: 0 <= i < k < |ids| ==> ids[i] < ids[k]
  }

  /** The lines of a bucket. */
  function Bucket(feed: seq<ClearingLine>, used: set<nat>, amount: int): seq<ClearingLine> {
    FreeAre(feed, used, amount, |feed|);
    LinesFrom(feed, FreeBelow(feed, used, amount, |feed|))
  }

  /** `min_by_key` over a bucket: the place of the first line at the fewest days inside the window. */
  function BucketBest(lines: seq<ClearingLine>, order: ClearingLine): (best: Option<nat>)
    ensures best.Some? ==> best.value < |lines|
  {
    if lines == [] then None
    else
      var n := |lines| - 1;
      var best := BucketBest(lines[..n], order);
      if DaysApart(order.date, lines[n].date) <= MATCH_WINDOW_DAYS
         && (best.None? || DaysApart(order.date, lines[n].date) < DaysApart(order.date, lines[best.value].date))
      then Some(n) else best
  }

  method FindBest(lines: seq<ClearingLine>, order: ClearingLine) returns (best: Option<nat>)
    ensures best == BucketBest(lines, order)
  {
    best := None;
    var i := 0;
    while i < |lines|
      invariant 0 <= i <= |lines| && best == BucketBest(lines[..i], order)
    {
      assert lines[..i + 1][..i] == lines[..i];
      var days := DaysApart(order.date, lines[i].date);
      if days <= MATCH_WINDOW_DAYS && (best.None? || days < DaysApart(order.date, lines[best.value].date)) {
        best := Some(i);
      }
      i := i + 1;
    }
    assert lines[..i] == lines;
  }

  lemma LinesFromSnoc(feed: seq<ClearingLine>, ids: seq<nat>, id: nat)
    requires id < |feed| && forall i :: 0 <= i < |ids| ==> ids[i] < |feed|
    ensures LinesFrom(feed, ids + [id]) == LinesFrom(feed, ids) + [feed[id]]
  {
  }

  lemma BucketBestSnoc(lines: seq<ClearingLine>, line: ClearingLine, order: ClearingLine)
    ensures BucketBest(lines + [line], order) ==
            var best := BucketBest(lines, order);
            if DaysApart(order.date, line.date) <= MATCH_WINDOW_DAYS
               && (best.None? || DaysApart(order.date, line.date) < DaysApart(order.date, lines[best.value].date))
            then Some(|lines|) else best
  {
    assert (lines + [line])[..|lines|] == lines;
  }

  /** The bucket's best line is the one named. */
  ghost predicate FoundBy(feed: seq<ClearingLine>, ids: seq<nat>, order: ClearingLine, best: Option<nat>) {
    && (forall i :: 0 <= i < |ids| ==> ids[i] < |feed|)
    && var inBucket := BucketBest(LinesFrom(feed, ids), order);
       best == if inBucket.Some? then Some(ids[inBucket.value]) else None
  }

  lemma FoundSnoc(feed: seq<ClearingLine>, ids: seq<nat>, order: ClearingLine, best: Option<nat>, j: nat)
    requires FoundBy(feed, ids, order, best) && j < |feed| && feed[j].amount == order.amount
    requires best.Some? ==> best.value < |feed|
    ensures FoundBy(feed, ids + [j], order,
                    if Compatible(order, feed[j])
                       && (best.None?
                           || DaysApart(order.date, feed[j].date) < DaysApart(order.date, feed[best.value].date))
                    then Some(j) else best)
  {
    hide BucketBest, DaysApart;
    LinesFromSnoc(feed, ids, j);
    BucketBestSnoc(LinesFrom(feed, ids), feed[j], order);
  }

  /** Looking in the bucket finds the line that looking through the whole feed would. */
  lemma {:induction false} BucketFindsBest(feed: seq<ClearingLine>, used: set<nat>, order: ClearingLine, n: nat)
    requires n <= |feed|
    ensures FoundBy(feed, FreeBelow(feed, used, order.amount, n), order, BestBelow(feed, used, order, n))
  {
    if n != 0 {
      BucketFindsBest(feed, used, order, n - 1);
      var before := FreeBelow(feed, used, order.amount, n - 1);
      assert before + [] == before;
      hide FoundBy, DaysApart;
      if n - 1 !in used && feed[n - 1].amount == order.amount {
        FoundSnoc(feed, before, order, BestBelow(feed, used, order, n - 1), n - 1);
      }
    }
  }

  function Except(ids: seq<nat>, j: nat): seq<nat> {
    if ids == [] then []
    else Except(ids[..|ids| - 1], j) + if ids[|ids| - 1] == j then [] else [ids[|ids| - 1]]
  }

  lemma {:induction false} ExceptAt(ids: seq<nat>, i: nat)
    requires i < |ids| && forall k, l :: 0 <= k < l < |ids| ==> ids[k] < ids[l]
    ensures Except(ids, ids[i]) == ids[..i] + ids[i + 1..]
  {
    var n := |ids| - 1;
    if i < n {
      ExceptAt(ids[..n], i);
      assert ids[..n][..i] + ids[..n][i + 1..] + [ids[n]] == ids[..i] + ids[i + 1..];
    } else {
      ExceptAbsent(ids[..n], ids[n]);
    }
  }

  lemma {:induction false} ExceptAbsent(ids: seq<nat>, j: nat)
    requires j !in ids
    ensures Except(ids, j) == ids
  {
    if ids != [] {
      ExceptAbsent(ids[..|ids| - 1], j);
      assert ids[|ids| - 1] in ids;
    }
  }

  /** Using a line takes it out of its bucket and leaves the others alone. */
  lemma {:induction false} UseOne(feed: seq<ClearingLine>, used: set<nat>, amount: int, n: nat, j: nat)
    requires n <= |feed|
    ensures FreeBelow(feed, used + {j}, amount, n) == Except(FreeBelow(feed, used, amount, n), j)
  {
    if n != 0 {
      UseOne(feed, used, amount, n - 1, j);
      var before := FreeBelow(feed, used, amount, n - 1);
      assert before + [] == before;
      assert (before + [n - 1])[..|before|] == before;
    }
  }

  lemma OtherBuckets(feed: seq<ClearingLine>, used: set<nat>, j: nat, other: int)
    requires j < |feed| && feed[j].amount != other
    ensures Bucket(feed, used + {j}, other) == Bucket(feed, used, other)
  {
    FreeAre(feed, used, other, |feed|);
    UseOne(feed, used, other, |feed|, j);
    ExceptAbsent(FreeBelow(feed, used, other, |feed|), j);
  }

  lemma LinesWithout(feed: seq<ClearingLine>, ids: seq<nat>, i: nat)
    requires i < |ids| && forall k :: 0 <= k < |ids| ==> ids[k] < |feed|
    ensures LinesFrom(feed, ids[..i] + ids[i + 1..]) == LinesFrom(feed, ids)[..i] + LinesFrom(feed, ids)[i + 1..]
  {
  }

  lemma FreeAt(feed: seq<ClearingLine>, used: set<nat>, amount: int, i: nat)
    requires i < |FreeBelow(feed, used, amount, |feed|)|
    ensures var j := FreeBelow(feed, used, amount, |feed|)[i]; j < |feed| && j !in used && feed[j].amount == amount
    ensures Rising(FreeBelow(feed, used, amount, |feed|), |feed|)
  {
    FreeAre(feed, used, amount, |feed|);
    assert FreeBelow(feed, used, amount, |feed|)[i] in FreeBelow(feed, used, amount, |feed|);
  }

  /** What its bucket holds after the line at place `i` of it is used. */
  lemma BucketAfter(feed: seq<ClearingLine>, used: set<nat>, amount: int, i: nat)
    requires i < |FreeBelow(feed, used, amount, |feed|)|
    ensures var j := FreeBelow(feed, used, amount, |feed|)[i];
            && i < |Bucket(feed, used, amount)| && j < |feed| && j !in used && feed[j].amount == amount
            && Bucket(feed, used + {j}, amount) == Bucket(feed, used, amount)[..i] + Bucket(feed, used, amount)[i + 1..]
  {
    hide FreeBelow, Except;
    var ids := FreeBelow(feed, used, amount, |feed|);
    FreeAt(feed, used, amount, i);
    UseOne(feed, used, amount, |feed|, ids[i]);
    ExceptAt(ids, i);
    LinesWithout(feed, ids, i);
  }

  // ------------------------------------------------------------------ pairing with buckets

  function OrdersLeft(orders: seq<ClearingLine>, choice: seq<Option<nat>>): seq<ClearingLine>
    requires |choice| == |orders|
  {
    if orders == [] then []
    else
      var n := |orders| - 1;
      OrdersLeft(orders[..n], choice[..n]) + if choice[n].None? then [orders[n]] else []
  }

  function MatchedCents(orders: seq<ClearingLine>, choice: seq<Option<nat>>): int
    requires |choice| == |orders|
  {
    if orders == [] then 0
    else
      var n := |orders| - 1;
      MatchedCents(orders[..n], choice[..n]) + if choice[n].Some? then orders[n].amount else 0
  }

  function LeftBelow(feed: seq<ClearingLine>, used: set<nat>, n: nat): seq<ClearingLine>
    requires n <= |feed|
  {
    if n == 0 then [] else LeftBelow(feed, used, n - 1) + if n - 1 in used then [] else [feed[n - 1]]
  }

  function FeedLeft(feed: seq<ClearingLine>, used: set<nat>): seq<ClearingLine> {
    LeftBelow(feed, used, |feed|)
  }

  function At(buckets: map<int, seq<ClearingLine>>, amount: int): seq<ClearingLine> {
    if amount in buckets then buckets[amount] else []
  }

  ghost predicate BucketsAre(feed: seq<ClearingLine>, used: set<nat>, buckets: map<int, seq<ClearingLine>>) {
    forall amount :: At(buckets, amount) == Bucket(feed, used, amount)
  }

  lemma BucketSnoc(feed: seq<ClearingLine>, line: ClearingLine, amount: int)
    ensures Bucket(feed + [line], {}, amount) == Bucket(feed, {}, amount) + if line.amount == amount then [line] else []
  {
    FreeAre(feed, {}, amount, |feed|);
    FreeAre(feed + [line], {}, amount, |feed|);
    FreePrefix(feed, line, amount, |feed|);
  }

  lemma {:induction false} FreePrefix(feed: seq<ClearingLine>, line: ClearingLine, amount: int, n: nat)
    requires n <= |feed|
    ensures FreeBelow(feed + [line], {}, amount, n) == FreeBelow(feed, {}, amount, n)
  {
    if n != 0 {
      FreePrefix(feed, line, amount, n - 1);
    }
  }

  lemma FillOne(feed: seq<ClearingLine>, line: ClearingLine, buckets: map<int, seq<ClearingLine>>)
    requires BucketsAre(feed, {}, buckets)
    ensures BucketsAre(feed + [line], {}, buckets[line.amount := At(buckets, line.amount) + [line]])
  {
    var after := buckets[line.amount := At(buckets, line.amount) + [line]];
    forall amount ensures At(after, amount) == Bucket(feed + [line], {}, amount) {
      assert At(buckets, amount) == Bucket(feed, {}, amount);
      BucketSnoc(feed, line, amount);
      assert Bucket(feed, {}, amount) + [] == Bucket(feed, {}, amount);
    }
  }

  method FillBuckets(feed: seq<ClearingLine>) returns (buckets: map<int, seq<ClearingLine>>)
    ensures BucketsAre(feed, {}, buckets)
  {
    buckets := map[];
    var i := 0;
    while i < |feed|
      invariant 0 <= i <= |feed|
      invariant BucketsAre(feed[..i], {}, buckets)
    {
      assert feed[..i + 1] == feed[..i] + [feed[i]];
      FillOne(feed[..i], feed[i], buckets);
      buckets := buckets[feed[i].amount := At(buckets, feed[i].amount) + [feed[i]]];
      i := i + 1;
    }
    assert feed[..i] == feed;
  }

  /** One order's turn, with the buckets: what the bucket finds is what the whole feed would, and
      taking it out leaves the buckets as they should be. */
  lemma TurnKeepsBuckets(feed: seq<ClearingLine>, used: set<nat>, buckets: map<int, seq<ClearingLine>>,
                         order: ClearingLine)
    requires BucketsAre(feed, used, buckets)
    ensures var bucket := At(buckets, order.amount);
            var best, found := BucketBest(bucket, order), BestBelow(feed, used, order, |feed|);
            if best.Some? then
              && found.Some? && order.amount in buckets
              && BucketsAre(feed, used + {found.value},
                            buckets[order.amount := bucket[..best.value] + bucket[best.value + 1..]])
            else found.None?
  {
    var bucket := At(buckets, order.amount);
    assert bucket == Bucket(feed, used, order.amount);
    BucketFindsBest(feed, used, order, |feed|);
    var best := BucketBest(bucket, order);
    if best.Some? {
      hide BucketBest, FreeBelow, BestBelow, Bucket, BucketsAre;
      BucketAfter(feed, used, order.amount, best.value);
      TakingKeepsBuckets(feed, used, buckets, order.amount, best.value);
    }
  }

  /** Taking a line out of its bucket leaves every bucket as it should be. */
  lemma TakingKeepsBuckets(feed: seq<ClearingLine>, used: set<nat>, buckets: map<int, seq<ClearingLine>>, amount: int,
                           i: nat)
    requires BucketsAre(feed, used, buckets) && i < |FreeBelow(feed, used, amount, |feed|)|
    ensures var bucket, j := Bucket(feed, used, amount), FreeBelow(feed, used, amount, |feed|)[i];
            && i < |bucket|
            && BucketsAre(feed, used + {j}, buckets[amount := bucket[..i] + bucket[i + 1..]])
  {
    hide FreeBelow, Bucket;
    var bucket, j := Bucket(feed, used, amount), FreeBelow(feed, used, amount, |feed|)[i];
    BucketAfter(feed, used, amount, i);
    var after := buckets[amount := bucket[..i] + bucket[i + 1..]];
    forall other ensures At(after, other) == Bucket(feed, used + {j}, other) {
      assert At(buckets, other) == Bucket(feed, used, other);
      if other != amount {
        OtherBuckets(feed, used, j, other);
      }
    }
  }

  lemma {:induction false} BucketIsPart(feed: seq<ClearingLine>, used: set<nat>, amount: int, n: nat,
                                        line: ClearingLine)
    requires n <= |feed|
    ensures forall i :: 0 <= i < |FreeBelow(feed, used, amount, n)| ==> FreeBelow(feed, used, amount, n)[i] < |feed|
    ensures multiset(LinesFrom(feed, FreeBelow(feed, used, amount, n)))[line]
         == if line.amount == amount then multiset(LeftBelow(feed, used, n))[line] else 0
  {
    FreeAre(feed, used, amount, n);
    if n != 0 {
      BucketIsPart(feed, used, amount, n - 1, line);
      var before := FreeBelow(feed, used, amount, n - 1);
      hide LinesFrom, Rising;
      if n - 1 !in used && feed[n - 1].amount == amount {
        LinesFromSnoc(feed, before, n - 1);
      } else {
        assert before + [] == before;
      }
      assert LeftBelow(feed, used, n - 1) + [] == LeftBelow(feed, used, n - 1);
    }
  }

  /** The lines drained so far: those of the buckets no longer waiting. */
  ghost predicate Drained(left: seq<ClearingLine>, whole: seq<ClearingLine>, done: set<int>) {
    forall line :: multiset(left)[line] == if line.amount in done then multiset(whole)[line] else 0
  }

  lemma DrainOne(feed: seq<ClearingLine>, used: set<nat>, left: seq<ClearingLine>, bucket: seq<ClearingLine>,
                 done: set<int>, amount: int)
    requires Drained(left, FeedLeft(feed, used), done) && amount !in done && bucket == Bucket(feed, used, amount)
    ensures Drained(left + bucket, FeedLeft(feed, used), done + {amount})
  {
    forall line
      ensures multiset(left + bucket)[line]
           == if line.amount in done + {amount} then multiset(FeedLeft(feed, used))[line] else 0
    {
      BucketIsPart(feed, used, amount, |feed|, line);
      assert multiset(left + bucket)[line] == multiset(left)[line] + multiset(bucket)[line];
    }
  }

  /** Everything the buckets still hold, in whatever order they come. */
  method Drain(feed: seq<ClearingLine>, ghost used: set<nat>, buckets: map<int, seq<ClearingLine>>)
    returns (left: seq<ClearingLine>)
    requires BucketsAre(feed, used, buckets)
    ensures multiset(left) == multiset(FeedLeft(feed, used))
  {
    left := [];
    var keys := buckets.Keys;
    while keys != {}
      invariant keys <= buckets.Keys
      invariant Drained(left, FeedLeft(feed, used), buckets.Keys - keys)
      decreases |keys|
    {
      SomeMember(keys);
      var amount :| amount in keys;
      assert At(buckets, amount) == Bucket(feed, used, amount);
      DrainOne(feed, used, left, buckets[amount], buckets.Keys - keys, amount);
      left := left + buckets[amount];
      assert buckets.Keys - (keys - {amount}) == buckets.Keys - keys + {amount};
      keys := keys - {amount};
    }
    DrainedAll(feed, used, left, buckets);
  }

  lemma SomeMember(keys: set<int>)
    requires keys != {}
    ensures exists k :: k in keys
  {
    if forall k :: k !in keys {
    }
  }

  lemma DrainedAll(feed: seq<ClearingLine>, used: set<nat>, left: seq<ClearingLine>,
                   buckets: map<int, seq<ClearingLine>>)
    requires BucketsAre(feed, used, buckets) && Drained(left, FeedLeft(feed, used), buckets.Keys)
    ensures multiset(left) == multiset(FeedLeft(feed, used))
  {
    forall line ensures multiset(left)[line] == multiset(FeedLeft(feed, used))[line] {
      if line.amount !in buckets {
        BucketIsPart(feed, used, line.amount, |feed|, line);
        assert At(buckets, line.amount) == Bucket(feed, used, line.amount);
      }
    }
  }

  /** What the loop has counted and set aside, for the orders so far. */
  ghost predicate Tallied(orders: seq<ClearingLine>, feed: seq<ClearingLine>, choice: seq<Option<nat>>,
                          matched: nat, cents: int, left: seq<ClearingLine>) {
    choice == Greedy(orders, feed) && matched == Matched(choice) && cents == MatchedCents(orders, choice)
    && left == OrdersLeft(orders, choice)
  }

  lemma GreedySnoc(orders: seq<ClearingLine>, feed: seq<ClearingLine>, order: ClearingLine)
    ensures Greedy(orders + [order], feed)
         == Greedy(orders, feed) + [BestBelow(feed, Used(Greedy(orders, feed)), order, |feed|)]
  {
    hide BestBelow, Used;
    assert (orders + [order])[..|orders|] == orders;
  }

  lemma TallyOne(orders: seq<ClearingLine>, feed: seq<ClearingLine>, choice: seq<Option<nat>>,
                 matched: nat, cents: int, left: seq<ClearingLine>, order: ClearingLine)
    requires Tallied(orders, feed, choice, matched, cents, left)
    ensures var best := BestBelow(feed, Used(choice), order, |feed|);
            if best.Some? then Tallied(orders + [order], feed, choice + [best], matched + 1, cents + order.amount, left)
            else Tallied(orders + [order], feed, choice + [best], matched, cents, left + [order])
  {
    hide Greedy;
    var best := BestBelow(feed, Used(choice), order, |feed|);
    GreedySnoc(orders, feed, order);
    hide BestBelow, Used;
    assert (orders + [order])[..|orders|] == orders && (choice + [best])[..|choice|] == choice;
    assert left + [] == left;
  }

  /** `pair`. */
  method Pair(unsorted: seq<ClearingLine>, feed: seq<ClearingLine>)
    returns (matched: nat, cents: int, ordersLeft: seq<ClearingLine>, feedLeft: seq<ClearingLine>)
    ensures var orders := SortBy(unsorted, LineOrder);
            var choice := Greedy(orders, feed);
            && matched == Matched(choice) && cents == MatchedCents(orders, choice)
            && ordersLeft == OrdersLeft(orders, choice)
            && multiset(feedLeft) == multiset(FeedLeft(feed, Used(choice))) && Sorted(feedLeft, LineOrder)
  {
    hide *;
    var buckets := FillBuckets(feed);
    var orders := SortBy(unsorted, LineOrder);
    matched, cents, ordersLeft := 0, 0, [];
    ghost var choice: seq<Option<nat>> := [];
    NothingTallied(feed);
    var i := 0;
    while i < |orders|
      invariant 0 <= i <= |orders|
      invariant BucketsAre(feed, Used(choice), buckets)
      invariant Tallied(orders[..i], feed, choice, matched, cents, ordersLeft)
    {
      var order := orders[i];
      assert orders[..i + 1] == orders[..i] + [order];
      ghost var next := BestBelow(feed, Used(choice), order, |feed|);
      UsedSnoc(choice, next);
      TurnKeepsBuckets(feed, Used(choice), buckets, order);
      TallyOne(orders[..i], feed, choice, matched, cents, ordersLeft, order);
      var bucket := At(buckets, order.amount);
      var best := FindBest(bucket, order);
      if best.Some? {
        buckets := buckets[order.amount := bucket[..best.value] + bucket[best.value + 1..]];
        matched := matched + 1;
        cents := cents + order.amount;
      } else {
        ordersLeft := ordersLeft + [order];
        assert Used(choice) + {} == Used(choice);
      }
      choice := choice + [next];
      i := i + 1;
    }
    assert orders[..i] == orders;
    TallyTells(orders, feed, choice, matched, cents, ordersLeft);
    var left := Drain(feed, Used(choice), buckets);
    LineOrderIsTotal();
    SortSorts(left, LineOrder);
    SortPermutes(left, LineOrder);
    feedLeft := SortBy(left, LineOrder);
  }

  lemma NothingTallied(feed: seq<ClearingLine>)
    ensures Used([]) == {} && Tallied([], feed, [], 0, 0, [])
  {
  }

  lemma TallyTells(orders: seq<ClearingLine>, feed: seq<ClearingLine>, choice: seq<Option<nat>>,
                   matched: nat, cents: int, left: seq<ClearingLine>)
    requires Tallied(orders, feed, choice, matched, cents, left)
    ensures choice == Greedy(orders, feed) && matched == Matched(choice) && cents == MatchedCents(orders, choice)
    ensures left == OrdersLeft(orders, choice)
  {
  }

  /** Orders have their turn oldest first, by entry within a day. */
  lemma OldestFirst(lines: seq<ClearingLine>)
    ensures var sorted := SortBy(lines, LineOrder);
            && multiset(sorted) == multiset(lines)
            && forall i, j :: 0 <= i < j < |sorted| ==>
                 sorted[i].date < sorted[j].date
                 || (sorted[i].date == sorted[j].date && sorted[i].entry <= sorted[j].entry)
  {
    LineOrderIsTotal();
    SortSorts(lines, LineOrder);
    SortPermutes(lines, LineOrder);
  }

  function TookNothing(choice: seq<Option<nat>>): nat -> bool {
    (i: nat) => i < |choice| && choice[i].None?
  }

  function LineAt(lines: seq<ClearingLine>): nat -> ClearingLine {
    (i: nat) => if i < |lines| then lines[i] else ClearingLine(0, 0, 0)
  }

  /** What is left over is just what was not paired: the orders that took nothing, in order, and the feed lines nothing
      took. */
  lemma {:induction false} OrdersLeftAre(orders: seq<ClearingLine>, choice: seq<Option<nat>>, n: nat)
    returns (places: seq<nat>)
    requires |choice| == |orders| && n <= |orders|
    ensures Lists(OrdersLeft(orders[..n], choice[..n]), places, n, TookNothing(choice), LineAt(orders))
  {
    hide Lists;
    if n == 0 {
      places := [];
      ListsNone(TookNothing(choice), LineAt(orders));
    } else {
      var before := OrdersLeftAre(orders, choice, n - 1);
      assert orders[..n][..n - 1] == orders[..n - 1] && choice[..n][..n - 1] == choice[..n - 1];
      var left := OrdersLeft(orders[..n - 1], choice[..n - 1]);
      assert left + [] == left;
      ListsNext(left, before, n - 1, TookNothing(choice), LineAt(orders));
      places := if TookNothing(choice)(n - 1) then before + [n - 1] else before;
    }
  }

  function NotIn(used: set<nat>): nat -> bool {
    (i: nat) => i !in used
  }

  lemma {:induction false} FeedLeftAre(feed: seq<ClearingLine>, used: set<nat>, n: nat) returns (places: seq<nat>)
    requires n <= |feed|
    ensures Lists(LeftBelow(feed, used, n), places, n, NotIn(used), LineAt(feed))
  {
    hide Lists;
    if n == 0 {
      places := [];
      ListsNone(NotIn(used), LineAt(feed));
    } else {
      var before := FeedLeftAre(feed, used, n - 1);
      assert LeftBelow(feed, used, n - 1) + [] == LeftBelow(feed, used, n - 1);
      ListsNext(LeftBelow(feed, used, n - 1), before, n - 1, NotIn(used), LineAt(feed));
      places := if NotIn(used)(n - 1) then before + [n - 1] else before;
    }
  }

  lemma LineOrderIsTotal()
    ensures TotalPreorder(LineOrder)
  {
  }

  // ------------------------------------------------------------------ nothing gets lost

  /** What is left among one more line. */
  lemma LeftSnoc(feed: seq<ClearingLine>, used: set<nat>, n: nat)
    requires 0 < n <= |feed|
    ensures SumOf(LeftBelow(feed, used, n)) == SumOf(LeftBelow(feed, used, n - 1)) + if n - 1 in used then 0
            else feed[n - 1].amount
  {
    var before := LeftBelow(feed, used, n - 1);
    assert before + [] == before;
    SumAppend(before, feed[n - 1], (l: ClearingLine) => l.amount);
  }

  lemma NothingLeftOfNothing(feed: seq<ClearingLine>, used: set<nat>)
    ensures SumOf(LeftBelow(feed, used, 0)) == 0
  {
  }

  lemma {:induction false} LeftAfter(feed: seq<ClearingLine>, used: set<nat>, j: nat, n: nat)
    requires n <= |feed| && j < |feed| && j !in used
    ensures SumOf(LeftBelow(feed, used + {j}, n)) == SumOf(LeftBelow(feed, used, n)) - if j < n then feed[j].amount
            else 0
  {
    hide *;
    if n == 0 {
      NothingLeftOfNothing(feed, used);
      NothingLeftOfNothing(feed, used + {j});
    } else {
      LeftAfter(feed, used, j, n - 1);
      LeftSnoc(feed, used, n);
      LeftSnoc(feed, used + {j}, n);
    }
  }

  lemma {:induction false} NothingUsed(feed: seq<ClearingLine>, n: nat)
    requires n <= |feed|
    ensures LeftBelow(feed, {}, n) == feed[..n]
  {
    if n != 0 {
      NothingUsed(feed, n - 1);
    }
  }

  /** What a pairing accounts for on both sides. */
  ghost predicate Conserves(orders: seq<ClearingLine>, feed: seq<ClearingLine>, choice: seq<Option<nat>>)
    requires |choice| == |orders|
  {
    && SumOf(orders) == MatchedCents(orders, choice) + SumOf(OrdersLeft(orders, choice))
    && SumOf(feed) == MatchedCents(orders, choice) + SumOf(FeedLeft(feed, Used(choice)))
    && Matched(choice) + |OrdersLeft(orders, choice)| == |orders|
  }

  lemma TurnConserves(orders: seq<ClearingLine>, feed: seq<ClearingLine>, before: seq<Option<nat>>,
                      order: ClearingLine, best: Option<nat>)
    requires |before| == |orders| && Conserves(orders, feed, before)
    requires best.Some? ==>
               best.value < |feed| && best.value !in Used(before) && feed[best.value].amount == order.amount
    ensures Conserves(orders + [order], feed, before + [best])
  {
    var left := OrdersLeft(orders, before);
    assert (before + [best])[..|orders|] == before && (orders + [order])[..|orders|] == orders && left + [] == left;
    UsedSnoc(before, best);
    SumAppend(left, order, (l: ClearingLine) => l.amount);
    SumAppend(orders, order, (l: ClearingLine) => l.amount);
    hide Used, LeftBelow;
    if best.Some? {
      LeftAfter(feed, Used(before), best.value, |feed|);
    } else {
      assert Used(before) + {} == Used(before);
    }
  }

  /** Pairing conserves both sides: what is matched and what is left add up to what there was. */
  lemma {:induction false} PairingConserves(orders: seq<ClearingLine>, feed: seq<ClearingLine>)
    ensures Conserves(orders, feed, Greedy(orders, feed))
  {
    if orders == [] {
      NothingUsed(feed, |feed|);
      assert feed[..|feed|] == feed;
      assert Used([]) == {};
    } else {
      hide Conserves, Used;
      var n := |orders| - 1;
      PairingConserves(orders[..n], feed);
      var before := Greedy(orders[..n], feed);
      TurnConserves(orders[..n], feed, before, orders[n], BestBelow(feed, Used(before), orders[n], |feed|));
      assert orders == orders[..n] + [orders[n]];
    }
  }

  // ------------------------------------------------------------------ the clearing account

  /** A line of a live entry on the account, and whether the order import wrote the entry: its
      reference begins `amazon-`. */
  datatype Row = Row(entry: EntryId, date: Date, amount: int, amazon: bool)

  predicate IsAmazon(reference: Option<Reference>) {
    reference.Some? && reference.value.Keyed?
    && (reference.value.key.AmazonKey? || (reference.value.key.TextKey? && "amazon-" <= reference.value.key.text))
  }

  function RowsOf(id: EntryId, e: Entry, lines: seq<Line>, account: AccountId): seq<Row> {
    if lines == [] then []
    else
      var l := lines[|lines| - 1];
      RowsOf(id, e, lines[..|lines| - 1], account)
      + if l.account == account then [Row(id, e.date, l.amount, IsAmazon(e.reference))] else []
  }

  function RowsBelow(entries: seq<Entry>, account: AccountId): seq<Row> {
    if entries == [] then []
    else
      var n := |entries| - 1;
      RowsBelow(entries[..n], account) + if entries[n].isVoid then []
      else RowsOf(n, entries[n], entries[n].lines, account)
  }

  predicate EarlierRow(a: Row, b: Row) {
    a.date <= b.date
  }

  function Rows(s: State, account: AccountId): seq<Row> {
    SortBy(RowsBelow(s.entries, account), EarlierRow)
  }

  /** The account's rows are read oldest first. */
  lemma RowsOldestFirst(s: State, account: AccountId)
    ensures var rows := Rows(s, account);
            && multiset(rows) == multiset(RowsBelow(s.entries, account))
            && forall i, j :: 0 <= i < j < |rows| ==> rows[i].date <= rows[j].date
  {
    SortSorts(RowsBelow(s.entries, account), EarlierRow);
    SortPermutes(RowsBelow(s.entries, account), EarlierRow);
  }

  /** One side of the account: the rows the order import wrote, or the others; zeros are no line. */
  function Side(rows: seq<Row>, amazon: bool): seq<ClearingLine> {
    if rows == [] then []
    else
      var r := rows[|rows| - 1];
      Side(rows[..|rows| - 1], amazon)
      + if r.amazon == amazon && r.amount != 0 then [ClearingLine(r.entry, r.date, Magnitude(r.amount))] else []
  }

  /** `load_clearing_lines`. */
  method LoadClearingLines(rows: seq<Row>) returns (orders: seq<ClearingLine>, feed: seq<ClearingLine>, balance: int)
    ensures orders == Side(rows, true) && feed == Side(rows, false)
    ensures balance == Sum(rows, (r: Row) => r.amount)
  {
    orders, feed, balance := [], [], 0;
    var i := 0;
    while i < |rows|
      invariant 0 <= i <= |rows|
      invariant orders == Side(rows[..i], true) && feed == Side(rows[..i], false)
      invariant balance == Sum(rows[..i], (r: Row) => r.amount)
    {
      assert rows[..i + 1][..i] == rows[..i];
      var r := rows[i];
      balance := balance + r.amount;
      if r.amount != 0 {
        var line := ClearingLine(r.entry, r.date, Magnitude(r.amount));
        if r.amazon {
          orders := orders + [line];
        } else {
          feed := feed + [line];
        }
      }
      i := i + 1;
    }
    assert rows[..i] == rows;
  }

  /** A row of the account is a line of a live entry on it, told by whether the entry's reference is the order import's.
      */
  lemma {:induction false} RowsAre(entries: seq<Entry>, account: AccountId, r: Row)
    ensures r in RowsBelow(entries, account)
       <==> && r.entry < |entries| && !entries[r.entry].isVoid && r.date == entries[r.entry].date
            && (r.amazon <==> IsAmazon(entries[r.entry].reference))
            && exists l :: l in entries[r.entry].lines && l.account == account && l.amount == r.amount
  {
    if entries != [] {
      var n := |entries| - 1;
      RowsAre(entries[..n], account, r);
      RowsOfAre(n, entries[n], entries[n].lines, account, r);
      hide RowsOf, IsAmazon;
    }
  }

  lemma {:induction false} RowsOfAre(id: EntryId, e: Entry, lines: seq<Line>, account: AccountId, r: Row)
    ensures r in RowsOf(id, e, lines, account)
       <==> && r.entry == id && r.date == e.date && (r.amazon <==> IsAmazon(e.reference))
            && exists l :: l in lines && l.account == account && l.amount == r.amount
  {
    hide IsAmazon;
    if lines != [] {
      var n := |lines| - 1;
      RowsOfAre(id, e, lines[..n], account, r);
      assert lines == lines[..n] + [lines[n]];
    }
  }

  /** The order import's references are those that begin with its name. */
  lemma IsAmazonMeans(reference: Option<Reference>)
    ensures IsAmazon(reference)
       <==> || (exists order, day, amount, card, settlement ::
                  reference == Some(Keyed(AmazonKey(order, day, amount, card, settlement))))
            || (exists text :: reference == Some(Keyed(TextKey(text))) && |text| >= 7 && text[..7] == "amazon-")
  {
    if IsAmazon(reference) && reference.value.key.AmazonKey? {
      var key := reference.value.key;
      assert reference == Some(Keyed(AmazonKey(key.order, key.paidOn, key.amount, key.card, key.settlement)));
    } else if IsAmazon(reference) {
      var text := reference.value.key.text;
      assert reference == Some(Keyed(TextKey(text))) && text[..7] == "amazon-";
    }
  }

  function OnSide(rows: seq<Row>, amazon: bool): nat -> bool {
    (i: nat) => i < |rows| && rows[i].amazon == amazon && rows[i].amount != 0
  }

  function LineOfRow(rows: seq<Row>): nat -> ClearingLine {
    (i: nat) => if |rows| <= i then ClearingLine(0, 0, 0)
                else ClearingLine(rows[i].entry, rows[i].date, if rows[i].amount < 0 then -rows[i].amount
                                  else rows[i].amount)
  }

  /** A side's lines are the rows on it that are not zero, by their size, as many and in the same order. */
  lemma {:induction false} SideIs(rows: seq<Row>, amazon: bool, n: nat) returns (places: seq<nat>)
    requires n <= |rows|
    ensures Lists(Side(rows[..n], amazon), places, n, OnSide(rows, amazon), LineOfRow(rows))
  {
    hide Lists;
    if n == 0 {
      places := [];
      ListsNone(OnSide(rows, amazon), LineOfRow(rows));
    } else {
      var before := SideIs(rows, amazon, n - 1);
      assert rows[..n][..n - 1] == rows[..n - 1] && rows[..n][n - 1] == rows[n - 1];
      assert Side(rows[..n - 1], amazon) + [] == Side(rows[..n - 1], amazon);
      ListsNext(Side(rows[..n - 1], amazon), before, n - 1, OnSide(rows, amazon), LineOfRow(rows));
      places := if OnSide(rows, amazon)(n - 1) then before + [n - 1] else before;
    }
  }

  /** What a side carries the wrong way round: orders debited, or feed lines credited. */
  function Contrary(r: Row): int {
    if r.amazon && 0 < r.amount then r.amount else if !r.amazon && r.amount < 0 then r.amount else 0
  }

  /** Each side's size, and what it carries the wrong way round, give the balance. */
  lemma {:induction false} SidesBalance(rows: seq<Row>)
    ensures Sum(rows, (r: Row) => r.amount)
         == SumOf(Side(rows, false)) - SumOf(Side(rows, true)) + 2 * Sum(rows, Contrary)
  {
    if rows != [] {
      var n := |rows| - 1;
      var r := rows[n];
      SidesBalance(rows[..n]);
      var line := ClearingLine(r.entry, r.date, Magnitude(r.amount));
      SumAppend(Side(rows[..n], true), line, (l: ClearingLine) => l.amount);
      SumAppend(Side(rows[..n], false), line, (l: ClearingLine) => l.amount);
      assert Side(rows[..n], true) + [] == Side(rows[..n], true)
             && Side(rows[..n], false) + [] == Side(rows[..n], false);
    }
  }

  lemma {:induction false} RowsOfTotal(id: EntryId, e: Entry, lines: seq<Line>, account: AccountId)
    ensures Sum(RowsOf(id, e, lines, account), (r: Row) => r.amount) == On(lines, account)
  {
    if lines != [] {
      var n := |lines| - 1;
      RowsOfTotal(id, e, lines[..n], account);
      var before := RowsOf(id, e, lines[..n], account);
      assert before + [] == before;
      SumAppend(before, Row(id, e.date, lines[n].amount, IsAmazon(e.reference)), (r: Row) => r.amount);
    }
  }

  lemma {:induction false} RowsTotal(entries: seq<Entry>, account: AccountId)
    ensures Sum(RowsBelow(entries, account), (r: Row) => r.amount) == LiveBalance(entries, account)
  {
    if entries != [] {
      var n := |entries| - 1;
      RowsTotal(entries[..n], account);
      var own := RowsOf(n, entries[n], entries[n].lines, account);
      RowsOfTotal(n, entries[n], entries[n].lines, account);
      var before := RowsBelow(entries[..n], account);
      assert before + [] == before;
      SumConcat(before, own, (r: Row) => r.amount);
    }
  }

  /** The clearing account holds what the card feed has left over less what the orders have, exactly
      when what orders debited makes up for what the feed credited; refunds on both sides may cancel. */
  lemma ClearingBalanceIsLeftovers(s: State, account: AccountId)
    ensures var rows := Rows(s, account);
            var orders, feed := SortBy(Side(rows, true), LineOrder), Side(rows, false);
            var choice := Greedy(orders, feed);
            && Sum(rows, (r: Row) => r.amount) == LiveBalance(s.entries, account)
            && LiveBalance(s.entries, account)
               == SumOf(FeedLeft(feed, Used(choice))) - SumOf(OrdersLeft(orders, choice)) + 2 * Sum(rows, Contrary)
            && (LiveBalance(s.entries, account)
                == SumOf(FeedLeft(feed, Used(choice))) - SumOf(OrdersLeft(orders, choice))
                <==> Sum(rows, Contrary) == 0)
  {
    var rows := Rows(s, account);
    var side, feed := Side(rows, true), Side(rows, false);
    var orders := SortBy(side, LineOrder);
    SortPermutes(RowsBelow(s.entries, account), EarlierRow);
    SumPermutation(rows, RowsBelow(s.entries, account), (r: Row) => r.amount);
    RowsTotal(s.entries, account);
    SidesBalance(rows);
    SortPermutes(side, LineOrder);
    SumPermutation(orders, side, (l: ClearingLine) => l.amount);
    hide Greedy, OrdersLeft, FeedLeft, MatchedCents, Used, Side, Rows;
    PairingConserves(orders, feed);
  }
}
