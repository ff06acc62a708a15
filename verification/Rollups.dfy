/** Many sales as one entry: remote events, what each plans to, and what a period of them totals. */
module Rollups {
  import opened Options
  import opened Sums
  import opened Calendar
  import opened Ledger
  import opened Commands

  datatype EventKind = Sale | Refund | GoodsReceived | PurchaseOrder | InventoryAdjustment | Unknown

  /** The date is the one the payload states, if it states one. */
  datatype RemoteEvent = RemoteEvent(id: nat, kind: EventKind, date: Option<Date>)

  datatype Planned = PlanEntry(post: Post) | PlanBill(order: BillOrder) | PlanNothing | PlanError

  /** How an event becomes lines is not part of this model. */
  type Planner = RemoteEvent -> Planned

  predicate IsRollupEvent(kind: EventKind) {
    kind == Sale || kind == Refund
  }

  // ------------------------------------------------------------------ totals by account and currency

  predicate SameKey(a: Line, b: Line) {
    a.account == b.account && a.currency == b.currency
  }

  predicate KeyBefore(a: Line, b: Line) {
    a.account < b.account || (a.account == b.account && a.currency < b.currency)
  }

  /** The running totals of a `BTreeMap`: one cell a key, in key order. */
  ghost predicate Ordered(totals: seq<Line>) {
    forall i, j :: 0 <= i < j < |totals| ==> KeyBefore(totals[i], totals[j])
  }

  /** `*totals.entry(key).or_insert(0) += amount`. */
  function Add(totals: seq<Line>, l: Line): seq<Line> {
    if totals == [] then [l]
    else if SameKey(totals[0], l) then [totals[0].(amount := totals[0].amount + l.amount)] + totals[1..]
    else if KeyBefore(l, totals[0]) then [l] + totals
    else [totals[0]] + Add(totals[1..], l)
  }

  function AddAll(totals: seq<Line>, lines: seq<Line>): seq<Line> {
    if lines == [] then totals else Add(AddAll(totals, lines[..|lines| - 1]), lines[|lines| - 1])
  }

  method AddLines(before: seq<Line>, lines: seq<Line>) returns (totals: seq<Line>)
    ensures totals == AddAll(before, lines)
  {
    totals := before;
    var j := 0;
    while j < |lines|
      invariant 0 <= j <= |lines| && totals == AddAll(before, lines[..j])
    {
      assert lines[..j + 1][..j] == lines[..j];
      totals := Add(totals, lines[j]);
      j := j + 1;
    }
    assert lines[..j] == lines;
  }

  lemma {:induction false} AddAllConcat(a: seq<Line>, b: seq<Line>)
    ensures AddAll(AddAll([], a), b) == AddAll([], a + b)
  {
    if b == [] {
      assert a + b == a;
    } else {
      AddAllConcat(a, b[..|b| - 1]);
      assert (a + b)[..|a| + |b| - 1] == a + b[..|b| - 1];
    }
  }

  function NonZero(totals: seq<Line>): seq<Line> {
    if totals == [] then []
    else if totals[0].amount == 0 then NonZero(totals[1..])
    else [totals[0]] + NonZero(totals[1..])
  }

  function CellOn(l: Line, key: Line): Cents {
    if SameKey(l, key) then l.amount else 0
  }

  /** What lines come to on one account and currency. */
  function KeyTotal(lines: seq<Line>, key: Line): Cents {
    Sum(lines, (l: Line) => CellOn(l, key))
  }

  /** Adding a line moves each weight that depends on the key alone, times the amount, by the line. */
  lemma {:induction false} AddWeighs(totals: seq<Line>, l: Line, f: Line -> int)
    requires forall k: Line, m: Line :: SameKey(k, m) ==> f(k.(amount := k.amount + m.amount)) == f(k) + f(m)
    ensures Sum(Add(totals, l), f) == Sum(totals, f) + f(l)
  {
    SumAppend([], l, f);
    assert [] + [l] == [l];
    if totals != [] {
      assert totals == [totals[0]] + totals[1..];
      SumCons(totals[0], totals[1..], f);
      if SameKey(totals[0], l) {
        SumCons(totals[0].(amount := totals[0].amount + l.amount), totals[1..], f);
      } else if KeyBefore(l, totals[0]) {
        SumCons(l, totals, f);
      } else {
        AddWeighs(totals[1..], l, f);
        SumCons(totals[0], Add(totals[1..], l), f);
      }
    }
  }

  lemma {:induction false} AddOrders(totals: seq<Line>, l: Line)
    requires Ordered(totals)
    ensures Ordered(Add(totals, l))
    ensures forall m :: m in Add(totals, l) ==> SameKey(m, l) || exists k :: k in totals && SameKey(m, k)
  {
    if totals != [] && !SameKey(totals[0], l) && !KeyBefore(l, totals[0]) {
      AddOrders(totals[1..], l);
      var rest := Add(totals[1..], l);
      forall j | 0 <= j < |rest| ensures KeyBefore(totals[0], rest[j]) {
        assert rest[j] in rest;
        if !SameKey(rest[j], l) {
          var k :| k in totals[1..] && SameKey(rest[j], k);
        }
      }
      forall m | m in [totals[0]] + rest ensures SameKey(m, l) || exists k :: k in totals && SameKey(m, k) {
        if m == totals[0] {
          assert m in totals && SameKey(m, m);
        } else if !SameKey(m, l) {
          assert m in rest;
          var k :| k in totals[1..] && SameKey(m, k);
          assert k in totals;
        }
      }
    } else {
      forall m | m in Add(totals, l) ensures SameKey(m, l) || exists k :: k in totals && SameKey(m, k) {
        assert !SameKey(m, l) ==> m in totals && SameKey(m, m);
      }
    }
  }

  lemma {:induction false} AddAllTotals(lines: seq<Line>, f: Line -> int)
    requires forall k: Line, m: Line :: SameKey(k, m) ==> f(k.(amount := k.amount + m.amount)) == f(k) + f(m)
    ensures Sum(AddAll([], lines), f) == Sum(lines, f)
    ensures Ordered(AddAll([], lines))
  {
    if lines != [] {
      var n := |lines| - 1;
      AddAllTotals(lines[..n], f);
      AddWeighs(AddAll([], lines[..n]), lines[n], f);
      AddOrders(AddAll([], lines[..n]), lines[n]);
    }
  }

  lemma {:induction false} NonZeroWeighs(totals: seq<Line>, f: Line -> int)
    requires forall l: Line :: l.amount == 0 ==> f(l) == 0
    ensures Sum(NonZero(totals), f) == Sum(totals, f)
  {
    if totals != [] {
      NonZeroWeighs(totals[1..], f);
      assert totals == [totals[0]] + totals[1..];
      hide Sum;
      SumCons(totals[0], totals[1..], f);
      SumCons(totals[0], NonZero(totals[1..]), f);
    }
  }

  lemma {:induction false} NonZeroAre(totals: seq<Line>)
    ensures forall l :: l in NonZero(totals) ==> l in totals && l.amount != 0
  {
    if totals != [] {
      NonZeroAre(totals[1..]);
      assert forall l :: l in totals[1..] ==> l in totals;
    }
  }

  lemma {:induction false} NonZeroOrders(totals: seq<Line>)
    requires Ordered(totals)
    ensures Ordered(NonZero(totals))
  {
    if totals != [] {
      NonZeroOrders(totals[1..]);
      NonZeroAre(totals[1..]);
      var rest := NonZero(totals[1..]);
      hide KeyBefore;
      forall j | 0 <= j < |rest| ensures KeyBefore(totals[0], rest[j]) {
        assert rest[j] in rest;
        var k :| 0 <= k < |totals[1..]| && totals[1..][k] == rest[j];
        assert KeyBefore(totals[0], totals[k + 1]);
      }
    }
  }

  lemma NonZeroKeeps(totals: seq<Line>, f: Line -> int)
    requires forall l: Line :: l.amount == 0 ==> f(l) == 0
    ensures Sum(NonZero(totals), f) == Sum(totals, f)
    ensures Ordered(totals) ==> Ordered(NonZero(totals))
    ensures forall l :: l in NonZero(totals) ==> l in totals && l.amount != 0
  {
    NonZeroWeighs(totals, f);
    NonZeroAre(totals);
    if Ordered(totals) {
      NonZeroOrders(totals);
    }
  }

  /** The lines an entry keeps: summed by key, in key order, zeros dropped. */
  function Summed(lines: seq<Line>): seq<Line> {
    NonZero(AddAll([], lines))
  }

  /** Summing keeps what lines come to on every key, on every account and in all. */
  lemma SummedKeepsTotals(lines: seq<Line>)
    ensures forall key :: KeyTotal(Summed(lines), key) == KeyTotal(lines, key)
    ensures forall account :: On(Summed(lines), account) == On(lines, account)
    ensures Total(Summed(lines)) == Total(lines)
    ensures Ordered(Summed(lines)) && forall l :: l in Summed(lines) ==> l.amount != 0
  {
    forall key ensures KeyTotal(Summed(lines), key) == KeyTotal(lines, key) {
      AddAllTotals(lines, (l: Line) => CellOn(l, key));
      NonZeroKeeps(AddAll([], lines), (l: Line) => CellOn(l, key));
    }
    forall account ensures On(Summed(lines), account) == On(lines, account) {
      AddAllTotals(lines, (l: Line) => LineOn(l, account));
      NonZeroKeeps(AddAll([], lines), (l: Line) => LineOn(l, account));
    }
    AddAllTotals(lines, (l: Line) => l.amount);
    NonZeroKeeps(AddAll([], lines), (l: Line) => l.amount);
  }

  /** Account comes before currency, and neither order of the lines nor a repeat shows. */
  lemma SummedIsOrdered(lines: seq<Line>, i: nat, j: nat)
    requires i < j < |Summed(lines)|
    ensures var a, b := Summed(lines)[i], Summed(lines)[j];
            a.account < b.account || (a.account == b.account && a.currency < b.currency)
  {
    SummedKeepsTotals(lines);
  }

  /** An ordered list without zeros is told by its key totals. */
  lemma {:induction false} TotalsTellLines(a: seq<Line>, b: seq<Line>)
    requires Ordered(a) && Ordered(b)
    requires forall l :: (l in a ==> l.amount != 0) && (l in b ==> l.amount != 0)
    requires forall key :: KeyTotal(a, key) == KeyTotal(b, key)
    ensures a == b
  {
    if a == [] {
      if b != [] {
        assert b[0] in b;
        HeadTotal(b, b[0]);
      }
    } else if b == [] {
      assert a[0] in a;
      HeadTotal(a, a[0]);
    } else {
      HeadTotal(a, a[0]);
      HeadTotal(b, b[0]);
      assert a[0] in a && b[0] in b;
      if KeyBefore(a[0], b[0]) { AbsentKey(b, a[0]); }
      if KeyBefore(b[0], a[0]) { AbsentKey(a, b[0]); }
      HeadTotal(b, a[0]);
      assert KeyTotal(a, a[0]) == KeyTotal(b, a[0]);
      assert a[0] == b[0] && a == [a[0]] + a[1..] && b == [b[0]] + b[1..];
      forall key ensures KeyTotal(a[1..], key) == KeyTotal(b[1..], key) {
        assert KeyTotal(a, key) == KeyTotal(b, key);
        SumCons(a[0], a[1..], (l: Line) => CellOn(l, key));
        SumCons(b[0], b[1..], (l: Line) => CellOn(l, key));
      }
      TotalsTellLines(a[1..], b[1..]);
    }
  }

  lemma HeadTotal(a: seq<Line>, key: Line)
    requires a != [] && Ordered(a) && SameKey(a[0], key)
    ensures KeyTotal(a, key) == a[0].amount
  {
    SumSingle(a, 0, (l: Line) => CellOn(l, key));
  }

  lemma AbsentKey(a: seq<Line>, key: Line)
    requires a != [] && Ordered(a) && KeyBefore(key, a[0])
    ensures KeyTotal(a, key) == 0
  {
    forall l | l in a ensures CellOn(l, key) == 0 {
      var i :| 0 <= i < |a| && a[i] == l;
    }
    SumZero(a, (l: Line) => CellOn(l, key));
  }

  // ------------------------------------------------------------------ a period's sales

  /** What a rollup found: an event that cannot be planned, nothing to post, or an entry. */
  datatype Rollup = Unplannable | NothingToPost | Rolled(post: Post)

  /** The lines of every sale and refund, each planned as it would be on its own. */
  function SalesLines(plan: Planner, events: seq<RemoteEvent>): seq<Line> {
    if events == [] then []
    else
      var e := events[|events| - 1];
      SalesLines(plan, events[..|events| - 1])
      + if IsRollupEvent(e.kind) && plan(e).PlanEntry? then plan(e).post.lines else []
  }

  predicate AnyUnplannable(plan: Planner, events: seq<RemoteEvent>) {
    exists e | e in events :: IsRollupEvent(e.kind) && plan(e).PlanError?
  }

  /** `plan_sales_rollup`, as a function of the events. */
  function SalesRollup(plan: Planner, date: Date, events: seq<RemoteEvent>, key: Key): Rollup {
    if AnyUnplannable(plan, events) then Unplannable
    else
      var lines := Summed(SalesLines(plan, events));
      if lines == [] then NothingToPost
      else Rolled(Post(date, lines, Some(key), Some(EventService)))
  }

  /** `plan_sales_rollup`. */
  method PlanSalesRollup(plan: Planner, period: Period, events: seq<RemoteEvent>, key: Key) returns (rollup: Rollup)
    ensures rollup == SalesRollup(plan, period.end, events, key)
  {
    var totals: seq<Line> := [];
    var counted := 0;
    var i := 0;
    while i < |events|
      invariant 0 <= i <= |events| && 0 <= counted
      invariant !AnyUnplannable(plan, events[..i])
      invariant totals == AddAll([], SalesLines(plan, events[..i]))
      invariant counted == 0 ==> SalesLines(plan, events[..i]) == []
    {
      hide AddAll;
      assert events[..i + 1][..i] == events[..i];
      ghost var before := SalesLines(plan, events[..i]);
      assert before + [] == before;
      if IsRollupEvent(events[i].kind) {
        match plan(events[i])
        case PlanError =>
          assert events[i] in events;
          return Unplannable;
        case PlanEntry(post) =>
          counted := counted + 1;
          AddAllConcat(before, post.lines);
          totals := AddLines(totals, post.lines);
        case _ =>
      }
      i := i + 1;
    }
    assert events[..i] == events;
    if counted == 0 {
      return NothingToPost;
    }
    var lines := NonZero(totals);
    rollup := if lines == [] then NothingToPost else Rolled(Post(period.end, lines, Some(key), Some(EventService)));
  }

  /** What one sale's own entry would put on a key. */
  function SaleOnKey(plan: Planner, e: RemoteEvent, key: Line): Cents {
    if IsRollupEvent(e.kind) && plan(e).PlanEntry? then KeyTotal(plan(e).post.lines, key) else 0
  }

  /** What the events' own entries would put on a key together. */
  function SalesOnKey(plan: Planner, events: seq<RemoteEvent>, key: Line): Cents {
    Sum(events, (e: RemoteEvent) => SaleOnKey(plan, e, key))
  }

  lemma {:induction false} SalesLinesTotal(plan: Planner, events: seq<RemoteEvent>, key: Line)
    ensures KeyTotal(SalesLines(plan, events), key) == SalesOnKey(plan, events, key)
  {
    if events != [] {
      var n := |events| - 1;
      var e := events[n];
      SalesLinesTotal(plan, events[..n], key);
      var own := if IsRollupEvent(e.kind) && plan(e).PlanEntry? then plan(e).post.lines else [];
      SumConcat(SalesLines(plan, events[..n]), own, (l: Line) => CellOn(l, key));
    }
  }

  /** A rollup is the individual postings: on every account and currency its lines come to exactly
      the sum of the events' own entries; no line is zero, no key repeats; and when there is nothing
      to post, the events come to nothing everywhere. */
  lemma RollupRefinesPostings(plan: Planner, date: Date, events: seq<RemoteEvent>, name: Key)
    ensures var rollup := SalesRollup(plan, date, events, name);
            && (rollup.Rolled? ==>
                  && Ordered(rollup.post.lines) && (forall l :: l in rollup.post.lines ==> l.amount != 0)
                  && forall key :: KeyTotal(rollup.post.lines, key) == SalesOnKey(plan, events, key))
            && (rollup.NothingToPost? ==> forall key :: SalesOnKey(plan, events, key) == 0)
  {
    SummedKeepsTotals(SalesLines(plan, events));
    forall key ensures KeyTotal(Summed(SalesLines(plan, events)), key) == SalesOnKey(plan, events, key) {
      SalesLinesTotal(plan, events, key);
    }
  }

  /** A batch is refused when a sale or refund cannot be planned; else it is an entry if it comes to something on some
      account and currency, dated and named as asked, and nothing if it does not. */
  lemma RollupOutcome(plan: Planner, date: Date, events: seq<RemoteEvent>, name: Key)
    ensures var rollup := SalesRollup(plan, date, events, name);
            && (rollup.Unplannable?
                <==> exists e :: e in events && (e.kind == Sale || e.kind == Refund) && plan(e).PlanError?)
            && (rollup.Rolled? <==> !rollup.Unplannable? && exists key :: SalesOnKey(plan, events, key) != 0)
            && (rollup.Rolled? ==>
                  rollup.post == Post(date, rollup.post.lines, Some(name), Some(EventService)))
  {
    RollupRefinesPostings(plan, date, events, name);
    hide Summed, SalesLines, KeyTotal, SalesOnKey;
    var rollup := SalesRollup(plan, date, events, name);
    if rollup.Rolled? {
      var lines := rollup.post.lines;
      assert lines[0] in lines;
      FirstKeyTotal(lines);
    }
  }

  lemma FirstKeyTotal(lines: seq<Line>)
    requires lines != [] && Ordered(lines)
    ensures KeyTotal(lines, lines[0]) == lines[0].amount
  {
    HeadTotal(lines, lines[0]);
  }

  /** What a batch comes to on an account and currency: what its sales and refunds plan there. */
  lemma SalesOnKeyMeans(plan: Planner, events: seq<RemoteEvent>, key: Line)
    ensures SalesOnKey(plan, events, key)
         == Sum(events, (e: RemoteEvent) =>
                  if (e.kind == Sale || e.kind == Refund) && plan(e).PlanEntry?
                  then Sum(plan(e).post.lines,
                           (l: Line) => if l.account == key.account && l.currency == key.currency then l.amount else 0)
                  else 0)
  {
    var f := (e: RemoteEvent) =>
      if (e.kind == Sale || e.kind == Refund) && plan(e).PlanEntry?
      then Sum(plan(e).post.lines,
               (l: Line) => if l.account == key.account && l.currency == key.currency then l.amount else 0)
      else 0;
    forall e: RemoteEvent ensures SaleOnKey(plan, e, key) == f(e) {
      if plan(e).PlanEntry? {
        SumSame(plan(e).post.lines, (l: Line) => CellOn(l, key),
                (l: Line) => if l.account == key.account && l.currency == key.currency then l.amount else 0);
      }
    }
    SumSame(events, (e: RemoteEvent) => SaleOnKey(plan, e, key), f);
  }

  /** However a batch is ordered, the rollup is the same entry, line for line. */
  lemma RollupIgnoresOrder(plan: Planner, date: Date, events: seq<RemoteEvent>, shuffled: seq<RemoteEvent>, name: Key)
    requires multiset(events) == multiset(shuffled)
    ensures SalesRollup(plan, date, events, name) == SalesRollup(plan, date, shuffled, name)
  {
    var a, b := Summed(SalesLines(plan, events)), Summed(SalesLines(plan, shuffled));
    SummedKeepsTotals(SalesLines(plan, events));
    SummedKeepsTotals(SalesLines(plan, shuffled));
    forall key ensures KeyTotal(a, key) == KeyTotal(b, key) {
      SalesLinesTotal(plan, events, key);
      SalesLinesTotal(plan, shuffled, key);
      SumPermutation(events, shuffled, (e: RemoteEvent) => SaleOnKey(plan, e, key));
    }
    TotalsTellLines(a, b);
    forall e ensures e in events <==> e in shuffled {
      assert e in events <==> e in multiset(events);
      assert e in shuffled <==> e in multiset(shuffled);
    }
  }

  /** Balanced plans roll up to a valid entry. */
  lemma RollupIsSound(plan: Planner, date: Date, events: seq<RemoteEvent>, name: Key)
    requires forall e :: e in events && plan(e).PlanEntry? ==> Total(plan(e).post.lines) == 0
    requires SalesRollup(plan, date, events, name).Rolled?
    ensures Sound(Posting(SalesRollup(plan, date, events, name).post))
  {
    SalesLinesBalance(plan, events);
    BalancedSumIsSound(SalesLines(plan, events));
  }

  /** Lines that sum to zero, once summed by key, are none or at least two. */
  lemma BalancedSumIsSound(lines: seq<Line>)
    requires Total(lines) == 0 && Summed(lines) != []
    ensures 2 <= |Summed(lines)| && Total(Summed(lines)) == 0
  {
    SummedKeepsTotals(lines);
    if |Summed(lines)| == 1 {
      assert Summed(lines)[0] in Summed(lines) && Summed(lines) == [Summed(lines)[0]];
      TotalOne(Summed(lines)[0]);
    }
  }

  lemma {:induction false} SalesLinesBalance(plan: Planner, events: seq<RemoteEvent>)
    requires forall e :: e in events && plan(e).PlanEntry? ==> Total(plan(e).post.lines) == 0
    ensures Total(SalesLines(plan, events)) == 0
  {
    if events != [] {
      var n := |events| - 1;
      SalesLinesBalance(plan, events[..n]);
      var own := if IsRollupEvent(events[n].kind) && plan(events[n]).PlanEntry? then plan(events[n]).post.lines else [];
      TotalConcat(SalesLines(plan, events[..n]), own);
    }
  }
}
