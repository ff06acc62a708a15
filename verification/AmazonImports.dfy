/** Shipments as ledger entries: their references, their lines, and importing the report again. */
module AmazonImports {
  import opened Options
  import opened Sums
  import opened Calendar
  import opened Ledger
  import opened Commands
  import opened Texts
  import opened AmazonOrders
  import opened AmazonCharges
  import opened ItemSignatures

  // ------------------------------------------------------------------ references

  /** The comparison behind `primary`: by amount, then the earlier date, then the smaller key. */
  predicate NotAbove(a: Payment, b: Payment) {
    a.amount < b.amount || (a.amount == b.amount && (b.date < a.date || (a.date == b.date && LexLe(b.key, a.key))))
  }

  /** `Charge::primary`: of equals, the last. */
  function Primary(payments: seq<Payment>): (p: Payment)
    requires payments != []
    ensures p in payments
    ensures forall q :: q in payments ==> q.amount <= p.amount
    ensures forall q :: q in payments && q.amount == p.amount ==> p.date <= q.date
    ensures forall q :: q in payments && q.amount == p.amount && q.date == p.date ==> LexLe(p.key, q.key)
  {
    LexIsAnOrder();
    var n := |payments| - 1;
    assert payments == payments[..n] + [payments[n]];
    if n == 0 then payments[0]
    else
      var best := Primary(payments[..n]);
      if NotAbove(best, payments[n]) then payments[n] else best
  }

  ghost predicate Funded(charges: seq<Charge>) {
    forall i :: 0 <= i < |charges| ==> charges[i].payments != []
  }

  /** `charge_reference`. */
  function Legacy(c: Charge): Key
    requires c.payments != []
  {
    var p := Primary(c.payments);
    AmazonKey(c.orderId, p.date, p.amount, p.last4, None)
  }

  /** The legacy keys of the first `n` charges. */
  function Legacies(charges: seq<Charge>, n: nat): set<Key>
    requires n <= |charges| && Funded(charges)
  {
    set i | 0 <= i < n :: Legacy(charges[i])
  }

  /** The legacy key, with the settlement's own id where an earlier charge has that key. */
  function ReferenceOf(charges: seq<Charge>, i: nat): Key
    requires i < |charges| && Funded(charges)
  {
    var key := Legacy(charges[i]);
    if key in Legacies(charges, i) then key.(settlement := Some(Primary(charges[i].payments).key)) else key
  }

  /** `assign_references`. */
  method AssignReferences(charges: seq<Charge>) returns (keys: seq<Key>)
    requires Funded(charges)
    ensures |keys| == |charges| && forall i :: 0 <= i < |charges| ==> keys[i] == ReferenceOf(charges, i)
  {
    hide Legacy, Primary, ReferenceOf, Legacies;
    var seen: set<Key> := {};
    keys := [];
    var i := 0;
    NoLegacies(charges);
    while i < |charges|
      invariant 0 <= i <= |charges| && |keys| == i
      invariant seen == Legacies(charges, i)
      invariant forall j :: 0 <= j < i ==> keys[j] == ReferenceOf(charges, j)
    {
      var base := Legacy(charges[i]);
      LegacyIsAmazon(charges[i]);
      NextLegacy(charges, i);
      keys := keys + [if base in seen then base.(settlement := Some(Primary(charges[i].payments).key)) else base];
      seen := seen + {base};
      i := i + 1;
    }
  }

  lemma NoLegacies(charges: seq<Charge>)
    requires Funded(charges)
    ensures Legacies(charges, 0) == {}
  {
  }

  lemma NextLegacy(charges: seq<Charge>, i: nat)
    requires i < |charges| && Funded(charges)
    ensures Legacies(charges, i + 1) == Legacies(charges, i) + {Legacy(charges[i])}
    ensures Legacy(charges[i]).AmazonKey?
    ensures var key, own := Legacy(charges[i]), Some(Primary(charges[i].payments).key);
            ReferenceOf(charges, i) == if key in Legacies(charges, i) then key.(settlement := own) else key
  {
    hide Primary;
  }

  lemma LegacyIsAmazon(c: Charge)
    requires c.payments != []
    ensures Legacy(c).AmazonKey? && Legacy(c).settlement.None? && Legacy(c).order == c.orderId
  {
  }

  /** Within an order, shipments are told apart by their primary settlements. */
  ghost predicate PrimariesApart(charges: seq<Charge>)
    requires Funded(charges)
  {
    forall i, j :: 0 <= i < j < |charges| && charges[i].orderId == charges[j].orderId ==>
      Primary(charges[i].payments).key != Primary(charges[j].payments).key
  }

  /** No two charges share a reference; the first of those with one legacy key keeps it. */
  lemma ReferencesAreDistinct(charges: seq<Charge>)
    requires Funded(charges) && PrimariesApart(charges)
    ensures forall i, j :: 0 <= i < j < |charges| ==> ReferenceOf(charges, i) != ReferenceOf(charges, j)
    ensures forall i :: 0 <= i < |charges| && (forall j :: 0 <= j < i ==> Legacy(charges[j]) != Legacy(charges[i])) ==>
              ReferenceOf(charges, i) == Legacy(charges[i])
  {
    forall i, j | 0 <= i < j < |charges| ensures ReferenceOf(charges, i) != ReferenceOf(charges, j) {
      hide Legacy, Primary;
      LegacyIsAmazon(charges[i]);
      LegacyIsAmazon(charges[j]);
      if Legacy(charges[i]) == Legacy(charges[j]) {
        assert Legacy(charges[j]) in Legacies(charges, j);
      }
    }
  }

  /** Some charge, this one or an earlier one, carries each charge's legacy key. */
  lemma {:induction false} FirstCarriesLegacy(charges: seq<Charge>, i: nat)
    requires Funded(charges) && i < |charges|
    ensures exists j :: 0 <= j <= i && ReferenceOf(charges, j) == Legacy(charges[i])
  {
    hide Legacy, Primary;
    LegacyIsAmazon(charges[i]);
    if Legacy(charges[i]) in Legacies(charges, i) {
      var j :| 0 <= j < i && Legacy(charges[j]) == Legacy(charges[i]);
      FirstCarriesLegacy(charges, j);
    } else {
      assert ReferenceOf(charges, i) == Legacy(charges[i]);
    }
  }

  // ------------------------------------------------------------------ the lines of a shipment

  /** Where the lines go: the parking account and the clearing account, and the currency. */
  datatype Accounts = Accounts(uncategorized: AccountId, clearing: AccountId, currency: Currency)

  /** `EntryLine::debit` of an item; one that cost nothing has no line. */
  function ItemLines(items: seq<Item>, at: Accounts): seq<Line> {
    if items == [] then []
    else
      var i := items[|items| - 1];
      ItemLines(items[..|items| - 1], at) + if i.cents == 0 then []
      else [Line(at.uncategorized, Magnitude(i.cents), at.currency)]
  }

  /** `EntryLine::credit`, one a settlement. */
  function PaymentLines(payments: seq<Payment>, at: Accounts): (lines: seq<Line>)
    ensures |lines| == |payments|
  {
    if payments == [] then []
    else
      var p := payments[|payments| - 1];
      PaymentLines(payments[..|payments| - 1], at) + [Line(at.clearing, -Magnitude(p.amount), at.currency)]
  }

  /** Every item, what the items and the settlements differ by, every settlement. */
  function ChargeLines(c: Charge, at: Accounts): seq<Line> {
    var discrepancy := PaymentsTotal(c.payments) - ItemsTotal(c.items);
    ItemLines(c.items, at)
    + (if discrepancy != 0 then [Line(at.uncategorized, discrepancy, at.currency)] else [])
    + PaymentLines(c.payments, at)
  }

  method BuildLines(c: Charge, at: Accounts) returns (lines: seq<Line>)
    ensures lines == ChargeLines(c, at)
  {
    lines := [];
    var sum, paid := 0, 0;
    var i := 0;
    while i < |c.items|
      invariant 0 <= i <= |c.items|
      invariant lines == ItemLines(c.items[..i], at) && sum == ItemsTotal(c.items[..i])
    {
      assert c.items[..i + 1][..i] == c.items[..i];
      if c.items[i].cents != 0 {
        sum := sum + c.items[i].cents;
        lines := lines + [Line(at.uncategorized, Magnitude(c.items[i].cents), at.currency)];
      }
      i := i + 1;
    }
    assert c.items[..i] == c.items;
    i := 0;
    while i < |c.payments|
      invariant 0 <= i <= |c.payments| && paid == PaymentsTotal(c.payments[..i])
    {
      assert c.payments[..i + 1][..i] == c.payments[..i];
      paid := paid + c.payments[i].amount;
      i := i + 1;
    }
    assert c.payments[..i] == c.payments;
    if paid - sum != 0 {
      lines := lines + [Line(at.uncategorized, paid - sum, at.currency)];
    }
    ghost var before := lines;
    i := 0;
    while i < |c.payments|
      invariant 0 <= i <= |c.payments| && lines == before + PaymentLines(c.payments[..i], at)
    {
      assert c.payments[..i + 1][..i] == c.payments[..i];
      lines := lines + [Line(at.clearing, -Magnitude(c.payments[i].amount), at.currency)];
      i := i + 1;
    }
    assert c.payments[..i] == c.payments;
  }

  function NegativeItem(i: Item): int {
    if i.cents < 0 then -i.cents else 0
  }

  function NegativePayment(p: Payment): int {
    if p.amount < 0 then -p.amount else 0
  }

  lemma LinesMore(lines: seq<Line>, line: Line)
    ensures Total(lines + [line]) == Total(lines) + line.amount
    ensures forall a :: On(lines + [line], a) == On(lines, a) + LineOn(line, a)
  {
    TotalConcat(lines, [line]);
    TotalOne(line);
    forall a ensures On(lines + [line], a) == On(lines, a) + LineOn(line, a) {
      OnConcat(lines, [line], a);
      OnOne(line, a);
    }
  }

  lemma {:induction false} ItemLinesTotal(items: seq<Item>, at: Accounts)
    ensures Total(ItemLines(items, at)) == ItemsTotal(items) + 2 * Sum(items, NegativeItem)
    ensures forall a :: a != at.uncategorized ==> On(ItemLines(items, at), a) == 0
  {
    hide Total, On;
    if items == [] {
      NoLinesNoTotal();
    } else {
      var n := |items| - 1;
      ItemLinesTotal(items[..n], at);
      var before := ItemLines(items[..n], at);
      assert before + [] == before;
      LinesMore(before, Line(at.uncategorized, Magnitude(items[n].cents), at.currency));
    }
  }

  lemma NoLinesNoTotal()
    ensures Total([]) == 0 && forall a :: On([], a) == 0
  {
  }

  lemma {:induction false} PaymentLinesTotal(payments: seq<Payment>, at: Accounts)
    ensures Total(PaymentLines(payments, at)) == -PaymentsTotal(payments) - 2 * Sum(payments, NegativePayment)
    ensures forall i :: 0 <= i < |payments| ==>
                          PaymentLines(payments, at)[i]
                          == Line(at.clearing, -Magnitude(payments[i].amount), at.currency)
    ensures On(PaymentLines(payments, at), at.clearing) == Total(PaymentLines(payments, at))
  {
    hide Total, On;
    if payments == [] {
      NoLinesNoTotal();
    } else {
      var n := |payments| - 1;
      PaymentLinesTotal(payments[..n], at);
      LinesMore(PaymentLines(payments[..n], at), Line(at.clearing, -Magnitude(payments[n].amount), at.currency));
    }
  }

  /** A shipment's entry balances exactly when its items and its settlements are negative by the same
      amount, as they are when none is negative; and it credits the clearing account once for each
      settlement, with that settlement's size. */
  lemma ChargeEntryBalances(c: Charge, at: Accounts)
    ensures Total(ChargeLines(c, at)) == 0 <==> Sum(c.items, NegativeItem) == Sum(c.payments, NegativePayment)
    ensures var lines := ChargeLines(c, at);
            && |c.payments| <= |lines|
            && lines[|lines| - |c.payments|..] == PaymentLines(c.payments, at)
            && (forall i :: 0 <= i < |c.payments| ==>
                  PaymentLines(c.payments, at)[i] == Line(at.clearing, -Magnitude(c.payments[i].amount), at.currency))
            && (at.clearing != at.uncategorized ==>
                  On(lines, at.clearing) == -PaymentsTotal(c.payments) - 2 * Sum(c.payments, NegativePayment))
  {
    var discrepancy := PaymentsTotal(c.payments) - ItemsTotal(c.items);
    var line := Line(at.uncategorized, discrepancy, at.currency);
    var items, payments := ItemLines(c.items, at), PaymentLines(c.payments, at);
    var between := if discrepancy != 0 then [line] else [];
    ItemLinesTotal(c.items, at);
    PaymentLinesTotal(c.payments, at);
    TotalOne(line);
    TotalConcat(items, between);
    TotalConcat(items + between, payments);
    OnConcat(items, between, at.clearing);
    OnConcat(items + between, payments, at.clearing);
    OnOne(line, at.clearing);
  }

  // ------------------------------------------------------------------ planning an import

  /** A live entry for this order, amount and card, whatever day its reference names. The wildcard that stands for
      the day also takes in the sign of a refund of the same size. */
  predicate PostedBefore(e: Entry, orderId: string, p: Payment) {
    && !e.isVoid && e.reference.Some? && e.reference.value.Keyed? && e.reference.value.key.AmazonKey?
    && var key := e.reference.value.key;
       && (key.amount == p.amount || (0 <= p.amount && key.amount == -p.amount))
       && key == AmazonKey(orderId, key.paidOn, key.amount, p.last4, None)
  }

  /** The reference of an imported charge names the order, the day, the amount and the card of its largest settlement;
      and that settlement itself, where an earlier charge of the report has the rest of it. */
  lemma ReferencesAre(charges: seq<Charge>, i: nat)
    requires Funded(charges) && i < |charges|
    ensures var p := Primary(charges[i].payments);
            var repeats := exists j :: 0 <= j < i && SameReference(charges[j], charges[i]);
            ReferenceOf(charges, i)
            == AmazonKey(charges[i].orderId, p.date, p.amount, p.last4, if repeats then Some(p.key) else None)
  {
    hide Primary;
  }

  /** One order, and largest settlements of one day, amount and card. */
  predicate SameReference(c: Charge, d: Charge)
    requires c.payments != [] && d.payments != []
  {
    var p, q := Primary(c.payments), Primary(d.payments);
    c.orderId == d.orderId && p.date == q.date && p.amount == q.amount && p.last4 == q.last4
  }

  /** `charge_already_imported`: any of its settlements counts. */
  predicate AlreadyImported(entries: seq<Entry>, c: Charge) {
    exists p | p in c.payments :: exists e | e in entries :: PostedBefore(e, c.orderId, p)
  }

  /** A charge counts as imported exactly when some live entry is under an Amazon reference of its own order and the
      card of one of its settlements, with no settlement id, for that settlement's amount or, unless that is negative,
      for as much the other way. */
  lemma ImportedMeans(entries: seq<Entry>, c: Charge)
    ensures AlreadyImported(entries, c)
       <==> exists i, j, day, amount ::
              && 0 <= i < |entries| && 0 <= j < |c.payments| && !entries[i].isVoid
              && entries[i].reference == Some(Keyed(AmazonKey(c.orderId, day, amount, c.payments[j].last4, None)))
              && (amount == c.payments[j].amount || (0 <= c.payments[j].amount && amount == -c.payments[j].amount))
  {
    if AlreadyImported(entries, c) {
      var p :| p in c.payments && exists e | e in entries :: PostedBefore(e, c.orderId, p);
      var e :| e in entries && PostedBefore(e, c.orderId, p);
      var i :| 0 <= i < |entries| && entries[i] == e;
      var j :| 0 <= j < |c.payments| && c.payments[j] == p;
      var key := e.reference.value.key;
      assert entries[i].reference
          == Some(Keyed(AmazonKey(c.orderId, key.paidOn, key.amount, c.payments[j].last4, None)));
    }
    if i, j, day, amount :|
         && 0 <= i < |entries| && 0 <= j < |c.payments| && !entries[i].isVoid
         && entries[i].reference == Some(Keyed(AmazonKey(c.orderId, day, amount, c.payments[j].last4, None)))
         && (amount == c.payments[j].amount || (0 <= c.payments[j].amount && amount == -c.payments[j].amount)) {
      assert c.payments[j] in c.payments && entries[i] in entries;
      assert PostedBefore(entries[i], c.orderId, c.payments[j]);
    }
  }

  function ChargePost(charges: seq<Charge>, i: nat, at: Accounts): Post
    requires i < |charges| && Funded(charges)
  {
    Post(charges[i].date, ChargeLines(charges[i], at), Some(ReferenceOf(charges, i)), Some(Import))
  }

  /** The entries of the first `n` charges that are not in the books. */
  function PostsFor(entries: seq<Entry>, charges: seq<Charge>, n: nat, at: Accounts): seq<Post>
    requires n <= |charges| && Funded(charges)
  {
    if n == 0 then []
    else
      PostsFor(entries, charges, n - 1, at)
      + if AlreadyImported(entries, charges[n - 1]) then [] else [ChargePost(charges, n - 1, at)]
  }

  datatype ImportRefusal = NoParkingAccount | NoClearingAccount

  datatype ImportPlan = Planned(posts: seq<Post>, skipped: nat) | ImportRefused(why: ImportRefusal)

  /** Which charges are not in the books yet, and how many are. */
  method FindWaiting(s: State, charges: seq<Charge>) returns (waiting: seq<nat>, skipped: nat)
    ensures waiting == NotImported(s.entries, charges, |charges|) && skipped + |waiting| == |charges|
  {
    hide AlreadyImported;
    waiting, skipped := [], 0;
    var i := 0;
    while i < |charges|
      invariant 0 <= i <= |charges|
      invariant waiting == NotImported(s.entries, charges, i) && skipped + |waiting| == i
    {
      if AlreadyImported(s.entries, charges[i]) {
        skipped := skipped + 1;
      } else {
        waiting := waiting + [i];
      }
      i := i + 1;
    }
  }

  /** Their entries, each under the reference its charge was assigned. */
  method PostWaiting(charges: seq<Charge>, waiting: seq<nat>, at: Accounts) returns (posts: seq<Post>)
    requires Funded(charges) && forall k :: 0 <= k < |waiting| ==> waiting[k] < |charges|
    ensures |posts| == |waiting|
    ensures forall k :: 0 <= k < |waiting| ==> posts[k] == ChargePost(charges, waiting[k], at)
  {
    hide ChargeLines, ReferenceOf;
    var keys := AssignReferences(charges);
    posts := [];
    var i := 0;
    while i < |waiting|
      invariant 0 <= i <= |waiting| && |posts| == i
      invariant forall k :: 0 <= k < i ==> posts[k] == ChargePost(charges, waiting[k], at)
    {
      var lines := BuildLines(charges[waiting[i]], at);
      posts := posts + [Post(charges[waiting[i]].date, lines, Some(keys[waiting[i]]), Some(Import))];
      i := i + 1;
    }
  }

  /** `plan_amazon_entries`. The accounts are only asked for when there is something to post. */
  method PlanAmazonEntries(s: State, charges: seq<Charge>, uncategorized: Option<AccountId>,
                           clearing: Option<AccountId>, currency: Currency)
    returns (plan: ImportPlan)
    requires Funded(charges)
    ensures plan == AmazonPlan(s.entries, charges, uncategorized, clearing, currency)
  {
    hide NotImported, ChargePost, PostsFor;
    var waiting, skipped := FindWaiting(s, charges);
    if waiting == [] {
      return Planned([], skipped);
    }
    if uncategorized.None? {
      return ImportRefused(NoParkingAccount);
    }
    if clearing.None? {
      return ImportRefused(NoClearingAccount);
    }
    var at := Accounts(uncategorized.value, clearing.value, currency);
    NotImportedAre(s.entries, charges, |charges|);
    var posts := PostWaiting(charges, waiting, at);
    PostsAreWaiting(s.entries, charges, |charges|, at);
    assert posts == PostsFor(s.entries, charges, |charges|, at);
    plan := Planned(posts, skipped);
  }

  function NotImported(entries: seq<Entry>, charges: seq<Charge>, n: nat): seq<nat>
    requires n <= |charges|
  {
    if n == 0 then []
    else NotImported(entries, charges, n - 1) + if AlreadyImported(entries, charges[n - 1]) then [] else [n - 1]
  }

  lemma {:induction false} NotImportedAre(entries: seq<Entry>, charges: seq<Charge>, n: nat)
    requires n <= |charges|
    ensures forall i :: 0 <= i < |NotImported(entries, charges, n)| ==> NotImported(entries, charges, n)[i] < n
    ensures |NotImported(entries, charges, n)| <= n
  {
    hide AlreadyImported;
    if n != 0 {
      NotImportedAre(entries, charges, n - 1);
    }
  }

  lemma {:induction false} PostsAreWaiting(entries: seq<Entry>, charges: seq<Charge>, n: nat, at: Accounts)
    requires n <= |charges| && Funded(charges)
    ensures var waiting, posts := NotImported(entries, charges, n), PostsFor(entries, charges, n, at);
            && |posts| == |waiting|
            && forall i :: 0 <= i < |waiting| ==>
                             waiting[i] < |charges| && posts[i] == ChargePost(charges, waiting[i], at)
  {
    hide AlreadyImported, ChargePost;
    if n != 0 {
      PostsAreWaiting(entries, charges, n - 1, at);
    }
  }

  /** `plan_amazon_entries`, as a function of the books. */
  function AmazonPlan(entries: seq<Entry>, charges: seq<Charge>, uncategorized: Option<AccountId>,
                      clearing: Option<AccountId>, currency: Currency): ImportPlan
    requires Funded(charges)
  {
    NotImportedAre(entries, charges, |charges|);
    var skipped := |charges| - |NotImported(entries, charges, |charges|)|;
    if NotImported(entries, charges, |charges|) == [] then Planned([], skipped)
    else if uncategorized.None? then ImportRefused(NoParkingAccount)
    else if clearing.None? then ImportRefused(NoClearingAccount)
    else Planned(PostsFor(entries, charges, |charges|, Accounts(uncategorized.value, clearing.value, currency)),
                 skipped)
  }

  /** The charges a plan posts: those that do not count as imported, in the order of the report. */
  lemma {:induction false} WaitingAre(entries: seq<Entry>, charges: seq<Charge>, n: nat)
    requires n <= |charges|
    ensures var waiting := NotImported(entries, charges, n);
            && (forall i :: i in waiting <==> 0 <= i < n && !AlreadyImported(entries, charges[i]))
            && (forall j, k :: 0 <= j < k < |waiting| ==> waiting[j] < waiting[k])
  {
    hide AlreadyImported;
    if n != 0 {
      WaitingAre(entries, charges, n - 1);
      var before := NotImported(entries, charges, n - 1);
      forall j | 0 <= j < |before| ensures before[j] < n - 1 {
        assert before[j] in before;
      }
    }
  }

  /** The lines of the items: on the parking account, one for each item that cost something, for its size. */
  lemma {:induction false} ItemLinesAre(items: seq<Item>, at: Accounts, size: Cents)
    ensures forall l :: l in ItemLines(items, at) ==>
                          l.account == at.uncategorized && l.currency == at.currency && 0 < l.amount
    ensures 0 < size ==>
              multiset(ItemLines(items, at))[Line(at.uncategorized, size, at.currency)]
              == Sum(items, (i: Item) => if i.cents == size || i.cents == -size then 1 else 0)
  {
    if items != [] {
      var n := |items| - 1;
      ItemLinesAre(items[..n], at, size);
      var before := ItemLines(items[..n], at);
      assert before + [] == before;
    }
  }

  /** Every line is on one of the two accounts, in the one currency. */
  lemma {:induction false} PaymentLinesAre(payments: seq<Payment>, at: Accounts)
    ensures forall l :: l in PaymentLines(payments, at) ==> l.account == at.clearing && l.currency == at.currency
  {
    if payments != [] {
      PaymentLinesAre(payments[..|payments| - 1], at);
    }
  }

  lemma ChargeLinesAreHere(c: Charge, at: Accounts)
    ensures forall l :: l in ChargeLines(c, at) ==>
              (l.account == at.uncategorized || l.account == at.clearing) && l.currency == at.currency
  {
    ItemLinesAre(c.items, at, 0);
    PaymentLinesAre(c.payments, at);
    hide ItemLines, PaymentLines;
  }

  /** A refund in the books hides a charge of the same size on the same order and card: it is counted as imported. */
  lemma RefundHidesACharge(entries: seq<Entry>, c: Charge, refund: Entry, day: Date,
                           uncategorized: Option<AccountId>, clearing: Option<AccountId>, currency: Currency)
    requires |c.payments| == 1 && 0 < c.payments[0].amount && refund in entries && !refund.isVoid
    requires refund.reference
          == Some(Keyed(AmazonKey(c.orderId, day, -c.payments[0].amount, c.payments[0].last4, None)))
    ensures AmazonPlan(entries, [c], uncategorized, clearing, currency) == Planned([], 1)
  {
    assert c.payments[0] in c.payments && PostedBefore(refund, c.orderId, c.payments[0]);
    hide ChargePost;
    assert NotImported(entries, [c], 0) == [];
  }
}
