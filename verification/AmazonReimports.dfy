/** A whole report: its charges have references of their own, and importing it again, its payment
    dates moved, posts nothing. */
module AmazonReimports {
  import opened Options
  import opened Sums
  import opened Sorting
  import opened Counting
  import opened Ledger
  import opened Commands
  import opened Runs
  import opened AmazonOrders
  import opened AmazonCharges
  import opened ItemSignatures
  import opened AmazonImports
  import opened SyncRuns

  /** A report, order by order as first seen. */
  datatype Reported = Reported(orderId: string, order: Order)

  ghost predicate WellReported(report: seq<Reported>) {
    && (forall i, j :: 0 <= i < j < |report| ==> report[i].orderId != report[j].orderId)
    && (forall r :: r in report ==> WellFormed(r.order))
  }

  function ChargesIn(r: Reported): seq<Charge> {
    ChargesFor(r.orderId, DropRestated(r.order))
  }

  /** What parsing ends with: each order's restated settlements dropped, the rest folded. */
  function ReportCharges(report: seq<Reported>): (charges: seq<Charge>)
    ensures Funded(charges)
  {
    if report == [] then []
    else
      ChargesAreFunded(report[|report| - 1].orderId, DropRestated(report[|report| - 1].order));
      ReportCharges(report[..|report| - 1]) + ChargesIn(report[|report| - 1])
  }

  /** The charges of a report are those of its orders, each order's restatements dropped. */
  lemma {:induction false} ReportChargesAre(report: seq<Reported>)
    ensures forall c :: c in ReportCharges(report)
                   <==> exists r :: r in report && c in ChargesFor(r.orderId, DropRestated(r.order))
    ensures |ReportCharges(report)| == Sum(report, (r: Reported) => |ChargesFor(r.orderId, DropRestated(r.order))|)
  {
    hide ChargesFor, DropRestated;
    if report != [] {
      var n := |report| - 1;
      ReportChargesAre(report[..n]);
      assert report == report[..n] + [report[n]];
    }
  }

  // ------------------------------------------------------------------ charges of one order

  /** Every charge has a settlement, and the order's name. */
  lemma ChargesAreFunded(orderId: string, o: Order)
    ensures Funded(ChargesFor(orderId, o))
    ensures forall c :: c in ChargesFor(orderId, o) ==> c.orderId == orderId
  {
    ChargesPartition(orderId, o);
    hide ChargesFor, ShortOf, Foots;
    var charges := ChargesFor(orderId, o);
    forall i | 0 <= i < |charges| ensures charges[i].payments != [] {
      assert charges[i] in charges;
    }
  }

  ghost predicate KeysApart(payments: seq<Payment>) {
    forall i, j :: 0 <= i < j < |payments| ==> payments[i].key != payments[j].key
  }

  lemma {:induction false} PaymentsAtApart(o: Order, keys: seq<string>)
    requires WellFormed(o) && Distinct(keys)
    ensures forall p :: p in PaymentsAt(o, keys) ==> p.key in keys
    ensures KeysApart(PaymentsAt(o, keys))
  {
    if keys != [] {
      var n := |keys| - 1;
      PaymentsAtApart(o, keys[..n]);
      assert keys[n] !in keys[..n];
      assert keys == keys[..n] + [keys[n]];
      var before := PaymentsAt(o, keys[..n]);
      forall i | 0 <= i < |before| ensures before[i].key in keys[..n] {
        assert before[i] in before;
      }
    }
  }

  /** Rearranged, settlements with keys of their own still have them. */
  lemma ApartInAnyOrder(xs: seq<Payment>, ys: seq<Payment>)
    requires multiset(xs) == multiset(ys) && KeysApart(ys)
    ensures KeysApart(xs)
  {
    SameElements(xs, ys);
    forall i, j | 0 <= i < j < |ys| ensures ys[i] != ys[j] {
      assert ys[i].key != ys[j].key;
    }
    DistinctCounts(ys);
    CountsDistinct(xs);
    forall i, j | 0 <= i < j < |xs| ensures xs[i].key != xs[j].key {
      assert xs[i] in ys && xs[j] in ys;
      var k :| 0 <= k < |ys| && ys[k] == xs[i];
      var l :| 0 <= l < |ys| && ys[l] == xs[j];
      assert k != l;
    }
  }

  /** Where a charge's settlements stand among all of them. */
  lemma {:induction false} PaymentsOfEarlier(charges: seq<Charge>, i: nat, j: nat, p: Payment, q: Payment)
    requires i < j < |charges| && p in charges[i].payments && q in charges[j].payments
    ensures exists k, l :: 0 <= k < l < |AllPayments(charges)| && AllPayments(charges)[k] == p
                           && AllPayments(charges)[l] == q
  {
    var n := |charges| - 1;
    var before := AllPayments(charges[..n]);
    if j < n {
      PaymentsOfEarlier(charges[..n], i, j, p, q);
      var k, l :| 0 <= k < l < |before| && before[k] == p && before[l] == q;
      assert AllPayments(charges)[k] == p && AllPayments(charges)[l] == q;
    } else {
      PaymentsHere(charges[..n], i, p);
      var k :| 0 <= k < |before| && before[k] == p;
      var l :| 0 <= l < |charges[n].payments| && charges[n].payments[l] == q;
      assert AllPayments(charges)[k] == p && AllPayments(charges)[|before| + l] == q;
    }
  }

  lemma {:induction false} PaymentsHere(charges: seq<Charge>, i: nat, p: Payment)
    requires i < |charges| && p in charges[i].payments
    ensures p in AllPayments(charges)
  {
    if i < |charges| - 1 {
      PaymentsHere(charges[..|charges| - 1], i, p);
    }
  }

  lemma {:induction false} OrderPrimariesApart(orderId: string, o: Order)
    requires WellFormed(o)
    ensures Funded(ChargesFor(orderId, o)) && PrimariesApart(ChargesFor(orderId, o))
  {
    var charges := ChargesFor(orderId, o);
    ChargesAreFunded(orderId, o);
    ChargesPartition(orderId, o);
    assert Distinct(o.keys);
    PaymentsAtApart(o, o.keys);
    ApartInAnyOrder(AllPayments(charges), PaymentsAt(o, o.keys));
    hide ChargesFor, AllPayments, PaymentsAt, WellFormed;
    forall i, j | 0 <= i < j < |charges| ensures Primary(charges[i].payments).key != Primary(charges[j].payments).key {
      PaymentsOfEarlier(charges, i, j, Primary(charges[i].payments), Primary(charges[j].payments));
    }
  }

  // ------------------------------------------------------------------ charges of a report

  lemma {:induction false} ReportNamesOrders(report: seq<Reported>)
    ensures forall c :: c in ReportCharges(report) ==> exists r :: r in report && r.orderId == c.orderId
  {
    hide DropRestated, ChargesFor;
    if report != [] {
      var n := |report| - 1;
      ReportNamesOrders(report[..n]);
      ChargesAreFunded(report[n].orderId, DropRestated(report[n].order));
      assert report == report[..n] + [report[n]];
    }
  }

  /** No charge of an order is one of the orders before it. */
  lemma OrdersApart(report: seq<Reported>, r: Reported)
    requires forall x :: x in report ==> x.orderId != r.orderId
    ensures forall i, j :: 0 <= i < |ReportCharges(report)| && 0 <= j < |ChargesIn(r)| ==>
              ReportCharges(report)[i].orderId != ChargesIn(r)[j].orderId
  {
    ReportNamesOrders(report);
    ChargesAreFunded(r.orderId, DropRestated(r.order));
    var before, own := ReportCharges(report), ChargesIn(r);
    hide ReportCharges, DropRestated, ChargesFor;
    forall i, j | 0 <= i < |before| && 0 <= j < |own| ensures before[i].orderId != own[j].orderId {
      assert before[i] in before && own[j] in own;
    }
  }

  lemma ReportSnoc(report: seq<Reported>, r: Reported)
    ensures ReportCharges(report + [r]) == ReportCharges(report) + ChargesIn(r)
  {
    hide ChargesIn;
    assert (report + [r])[..|report|] == report;
  }

  lemma {:induction false} ReportPrimariesApart(report: seq<Reported>)
    requires WellReported(report)
    ensures PrimariesApart(ReportCharges(report))
  {
    if report != [] {
      var n := |report| - 1;
      var r := report[n];
      assert r in report && report == report[..n] + [r];
      forall x | x in report[..n] ensures x in report && x.orderId != r.orderId {
        var k :| 0 <= k < n && report[k] == x;
      }
      ReportPrimariesApart(report[..n]);
      DroppingIsSettled(r.order);
      OrderPrimariesApart(r.orderId, DropRestated(r.order));
      OrdersApart(report[..n], r);
      hide ReportCharges, DropRestated, ChargesFor, PrimariesApart;
      ReportSnoc(report[..n], r);
      ApartTogether(ReportCharges(report[..n]), ChargesIn(r));
    }
  }

  lemma ApartTogether(before: seq<Charge>, own: seq<Charge>)
    requires Funded(before) && Funded(own) && PrimariesApart(before) && PrimariesApart(own)
    requires forall i, j :: 0 <= i < |before| && 0 <= j < |own| ==> before[i].orderId != own[j].orderId
    ensures Funded(before + own) && PrimariesApart(before + own)
  {
    hide Primary;
  }

  /** The references a report assigns are all different. */
  lemma {:induction false} ReportReferencesAreDistinct(report: seq<Reported>)
    requires WellReported(report)
    ensures forall i, j :: 0 <= i < j < |ReportCharges(report)| ==>
                             ReferenceOf(ReportCharges(report), i) != ReferenceOf(ReportCharges(report), j)
  {
    ReportPrimariesApart(report);
    ReferencesAreDistinct(ReportCharges(report));
  }

  // ------------------------------------------------------------------ the same report, other dates

  predicate SameButDate(p: Payment, q: Payment) {
    q == p.(date := q.date)
  }

  predicate RedatedSettlement(a: Settlement, b: Settlement) {
    SameButDate(a.payment, b.payment) && a.items == b.items
  }

  ghost predicate RedatedOrder(a: Order, b: Order) {
    && a.netTotal == b.netTotal && a.keys == b.keys && a.byKey.Keys == b.byKey.Keys
    && forall k :: k in a.byKey ==> RedatedSettlement(a.byKey[k], b.byKey[k])
  }

  ghost predicate RedatedReport(a: seq<Reported>, b: seq<Reported>) {
    |a| == |b| && forall i :: 0 <= i < |a| ==> a[i].orderId == b[i].orderId && RedatedOrder(a[i].order, b[i].order)
  }

  ghost predicate RedatedCharge(c: Charge, d: Charge) {
    && c.orderId == d.orderId && c.items == d.items && |c.payments| == |d.payments|
    && forall i :: 0 <= i < |c.payments| ==> SameButDate(c.payments[i], d.payments[i])
  }

  ghost predicate RedatedCharges(cs: seq<Charge>, ds: seq<Charge>) {
    |cs| == |ds| && forall i :: 0 <= i < |cs| ==> RedatedCharge(cs[i], ds[i])
  }

  lemma {:induction false} KeptAlike(a: Order, b: Order, keys: seq<string>)
    requires RedatedOrder(a, b)
    ensures Kept(a, keys) == Kept(b, keys)
  {
    if keys != [] {
      KeptAlike(a, b, keys[..|keys| - 1]);
      ChargesAlike(a, b, keys[..|keys| - 1]);
    }
  }

  lemma ChargesAlike(a: Order, b: Order, keys: seq<string>)
    requires RedatedOrder(a, b)
    ensures CardCharges(a, keys) == CardCharges(b, keys)
  {
    forall k | k in keys && k in a.byKey ensures CardCharge(a.byKey[k].payment) == CardCharge(b.byKey[k].payment) {
      assert RedatedSettlement(a.byKey[k], b.byKey[k]);
    }
  }

  lemma PaidAlike(a: Order, b: Order, keys: seq<string>)
    requires RedatedOrder(a, b)
    ensures PaidBy(a, keys) == PaidBy(b, keys)
  {
    forall k: string | k in keys ensures AmountAt(a, k) == AmountAt(b, k) {
      if k in a.byKey { assert RedatedSettlement(a.byKey[k], b.byKey[k]); }
    }
    SumSame(keys, (k: string) => AmountAt(a, k), (k: string) => AmountAt(b, k));
  }

  lemma DroppedAlike(a: Order, b: Order)
    requires RedatedOrder(a, b)
    ensures RedatedOrder(DropRestated(a), DropRestated(b))
  {
    PaidAlike(a, b, a.keys);
    KeptAlike(a, b, a.keys);
    PaidAlike(a, b, Kept(a, a.keys));
  }

  ghost predicate RedatedPools(ps: seq<Pool>, qs: seq<Pool>) {
    |ps| == |qs| && forall i :: 0 <= i < |ps| ==>
                                  ps[i].signature == qs[i].signature && RedatedCharge(ps[i].charge, qs[i].charge)
  }

  lemma {:induction false} PooledAlike(ps: seq<Pool>, qs: seq<Pool>, orderId: string, a: Settlement, b: Settlement)
    requires RedatedPools(ps, qs) && RedatedSettlement(a, b)
    ensures RedatedPools(AddToPools(ps, orderId, a), AddToPools(qs, orderId, b))
  {
    hide Signature;
    if ps != [] && ps[0].signature != Signature(a.items) {
      PooledAlike(ps[1..], qs[1..], orderId, a, b);
    }
  }

  lemma {:induction false} FoldedAlike(orderId: string, a: Order, b: Order, keys: seq<string>)
    requires RedatedOrder(a, b)
    ensures RedatedCharges(Alone(orderId, a, keys), Alone(orderId, b, keys))
    ensures RedatedPools(Pools(orderId, a, keys), Pools(orderId, b, keys))
  {
    hide AddToPools;
    if keys != [] {
      var n := |keys| - 1;
      FoldedAlike(orderId, a, b, keys[..n]);
      if keys[n] in a.byKey {
        assert RedatedSettlement(a.byKey[keys[n]], b.byKey[keys[n]]);
        PooledAlike(Pools(orderId, a, keys[..n]), Pools(orderId, b, keys[..n]), orderId, a.byKey[keys[n]],
                    b.byKey[keys[n]]);
      }
    }
  }

  lemma OrdersAlike(a: Reported, b: Reported)
    requires a.orderId == b.orderId && RedatedOrder(a.order, b.order)
    ensures RedatedCharges(ChargesIn(a), ChargesIn(b))
  {
    hide Alone, Pools;
    DroppedAlike(a.order, b.order);
    FoldedAlike(a.orderId, DropRestated(a.order), DropRestated(b.order), DropRestated(a.order).keys);
  }

  lemma AlikeTogether(cs: seq<Charge>, ds: seq<Charge>, more: seq<Charge>, again: seq<Charge>)
    requires RedatedCharges(cs, ds) && RedatedCharges(more, again)
    ensures RedatedCharges(cs + more, ds + again)
  {
    hide RedatedCharge;
  }

  /** Moving payment dates moves no settlement to another shipment. */
  lemma {:induction false} ReportsAlike(a: seq<Reported>, b: seq<Reported>)
    requires RedatedReport(a, b)
    ensures RedatedCharges(ReportCharges(a), ReportCharges(b))
  {
    if a != [] {
      hide RedatedOrder, RedatedCharges, ChargesIn;
      var n := |a| - 1;
      ReportsAlike(a[..n], b[..n]);
      OrdersAlike(a[n], b[n]);
      AlikeTogether(ReportCharges(a[..n]), ReportCharges(b[..n]), ChargesIn(a[n]), ChargesIn(b[n]));
    }
  }

  // ------------------------------------------------------------------ importing twice

  function PostCommands(posts: seq<Post>): (cmds: seq<Command>)
    ensures |cmds| == |posts| && forall i :: 0 <= i < |posts| ==> cmds[i] == PostEntry(posts[i])
  {
    seq(|posts|, i requires 0 <= i < |posts| => PostEntry(posts[i]))
  }

  lemma StepHolds(s: State, books: Books, cmd: Command)
    requires NameOf(cmd).Some?
    ensures forall key :: Held(s, key) ==> Held(Step(s, books, cmd), key)
    ensures !Troubled(s, books, cmd) ==> Held(Step(s, books, cmd), NameOf(cmd).value)
  {
    hide Step, Troubled, NameOf, LinesOf, Held;
    var t := Step(s, books, cmd);
    Attempt(s, books, cmd);
    if t != s {
      var e := t.entries[|s.entries|];
      assert t.entries == s.entries + [e];
      forall key ensures Held(t, key) <==> Held(s, key) || key == NameOf(cmd).value {
        HeldWith(s, t, e, NameOf(cmd).value, key);
      }
    }
  }

  lemma HeldWith(s: State, t: State, e: Entry, key: Key, other: Key)
    requires t.entries == s.entries + [e] && e.reference == Some(Keyed(key)) && !e.isVoid
    ensures Held(t, other) <==> Held(s, other) || other == key
  {
    HeldAfterPosting(s.entries, e, key, other);
  }

  /** After posts that all went through, or found their reference there already, all are held. */
  lemma {:induction false} PostedAreHeld(s: State, books: Books, cmds: seq<Command>)
    requires forall cmd :: cmd in cmds ==> NameOf(cmd).Some?
    requires Troubles(s, books, cmds) == 0
    ensures forall key :: Held(s, key) ==> Held(Run(s, books, cmds), key)
    ensures forall cmd :: cmd in cmds ==> NameOf(cmd).Some? && Held(Run(s, books, cmds), NameOf(cmd).value)
  {
    hide Step, Troubled, NameOf, Held;
    if cmds != [] {
      var n := |cmds| - 1;
      assert cmds[n] in cmds && cmds == cmds[..n] + [cmds[n]];
      PostedAreHeld(s, books, cmds[..n]);
      StepHolds(Run(s, books, cmds[..n]), books, cmds[n]);
    }
  }

  /** The books have none of the report's charges yet. */
  ghost predicate NoneImported(entries: seq<Entry>, charges: seq<Charge>) {
    forall i :: 0 <= i < |charges| ==> !AlreadyImported(entries, charges[i])
  }

  lemma {:induction false} AllArePosted(entries: seq<Entry>, charges: seq<Charge>, n: nat, at: Accounts)
    requires n <= |charges| && Funded(charges) && NoneImported(entries, charges)
    ensures |PostsFor(entries, charges, n, at)| == n
    ensures forall i :: 0 <= i < n ==> PostsFor(entries, charges, n, at)[i] == ChargePost(charges, i, at)
  {
    hide AlreadyImported, ChargePost;
    if n != 0 {
      AllArePosted(entries, charges, n - 1, at);
    }
  }

  /** A held legacy key of a charge is found again by the same charge on other dates. */
  lemma HeldIsFound(t: State, c: Charge, d: Charge)
    requires c.payments != [] && RedatedCharge(c, d) && Held(t, Legacy(c))
    ensures AlreadyImported(t.entries, d)
  {
    var p := Primary(c.payments);
    var i :| 0 <= i < |c.payments| && c.payments[i] == p;
    assert SameButDate(p, d.payments[i]);
    var e := t.entries[Holder(t.entries, Keyed(Legacy(c))).value];
    assert e in t.entries && d.payments[i] in d.payments && PostedBefore(e, d.orderId, d.payments[i]);
  }

  lemma {:induction false} NothingWaits(entries: seq<Entry>, charges: seq<Charge>, n: nat)
    requires n <= |charges| && forall i :: 0 <= i < |charges| ==> AlreadyImported(entries, charges[i])
    ensures NotImported(entries, charges, n) == []
  {
    hide AlreadyImported;
    if n != 0 {
      NothingWaits(entries, charges, n - 1);
    }
  }

  /** Every charge of the second reading is found among the entries of the first. */
  lemma {:induction false} AllAreFound(s: State, books: Books, cs: seq<Charge>, ds: seq<Charge>, cmds: seq<Command>,
                                       at: Accounts)
    requires Funded(cs) && RedatedCharges(cs, ds) && Troubles(s, books, cmds) == 0
    requires |cmds| == |cs| && forall i :: 0 <= i < |cs| ==> cmds[i] == PostEntry(ChargePost(cs, i, at))
    ensures forall i :: 0 <= i < |ds| ==> AlreadyImported(Run(s, books, cmds).entries, ds[i])
  {
    hide Run, Troubles, AlreadyImported, Held, ReferenceOf, Legacy, ChargeLines, RedatedCharge;
    forall cmd | cmd in cmds ensures NameOf(cmd).Some? {
      var i :| 0 <= i < |cmds| && cmds[i] == cmd;
    }
    PostedAreHeld(s, books, cmds);
    forall i | 0 <= i < |ds| ensures AlreadyImported(Run(s, books, cmds).entries, ds[i]) {
      FirstCarriesLegacy(cs, i);
      var j :| 0 <= j <= i && ReferenceOf(cs, j) == Legacy(cs[i]);
      assert cmds[j] in cmds;
      HeldIsFound(Run(s, books, cmds), cs[i], ds[i]);
    }
  }

  /** Importing a report again is a no-op. Once every entry of a first import is in the books, the
      same report with any payment dates moved plans nothing, and skips every charge. */
  lemma {:induction false} ReimportIsANoOp(s: State, books: Books, report: seq<Reported>, again: seq<Reported>,
                                           at: Accounts,
                        uncategorized: Option<AccountId>, clearing: Option<AccountId>, currency: Currency)
    requires RedatedReport(report, again) && NoneImported(s.entries, ReportCharges(report))
    requires var posts := PostsFor(s.entries, ReportCharges(report), |ReportCharges(report)|, at);
             Troubles(s, books, PostCommands(posts)) == 0
    ensures var posts := PostsFor(s.entries, ReportCharges(report), |ReportCharges(report)|, at);
            var t := Run(s, books, PostCommands(posts));
            AmazonPlan(t.entries, ReportCharges(again), uncategorized, clearing, currency)
            == Planned([], |ReportCharges(again)|)
  {
    hide RedatedReport, RedatedCharges, ReportCharges, PostsFor, Run, Troubles, AlreadyImported, NoneImported,
         ChargePost;
    var cs, ds := ReportCharges(report), ReportCharges(again);
    var posts := PostsFor(s.entries, cs, |cs|, at);
    ReportsAlike(report, again);
    AllArePosted(s.entries, cs, |cs|, at);
    AllAreFound(s, books, cs, ds, PostCommands(posts), at);
    NothingWaits(Run(s, books, PostCommands(posts)).entries, ds, |ds|);
  }
}
