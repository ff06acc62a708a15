/** One Amazon order's settlements: restated ones dropped, the rest folded into the shipments they
    paid for. */
module AmazonOrders {
  import opened Options
  import opened Sums
  import opened Counting
  import opened Calendar
  import opened Ledger

  datatype Payment = Payment(key: string, date: Date, amount: Cents, cardType: string, last4: string)

  datatype Item = Item(title: string, cents: Cents)

  datatype Settlement = Settlement(payment: Payment, items: seq<Item>)

  /** What an order's rows say, as a value. */
  datatype Order = Order(netTotal: Option<Cents>, keys: seq<string>, byKey: map<string, Settlement>)

  /** Each key is listed once and names its settlement, as parsing leaves it. */
  ghost predicate WellFormed(o: Order) {
    && (forall i, j :: 0 <= i < j < |o.keys| ==> o.keys[i] != o.keys[j])
    && (forall k :: k in o.keys <==> k in o.byKey)
    && (forall k :: k in o.byKey ==> o.byKey[k].payment.key == k)
  }

  // ------------------------------------------------------------------ restated settlements

  function AmountAt(o: Order, key: string): Cents {
    if key in o.byKey then o.byKey[key].payment.amount else 0
  }

  function PaidBy(o: Order, keys: seq<string>): Cents {
    Sum(keys, (k: string) => AmountAt(o, k))
  }

  /** What a restated settlement shares with the first statement of it. */
  function CardCharge(p: Payment): (Cents, string, string) {
    (p.amount, p.cardType, p.last4)
  }

  function CardCharges(o: Order, keys: seq<string>): set<(Cents, string, string)> {
    set k | k in keys && k in o.byKey :: CardCharge(o.byKey[k].payment)
  }

  /** The first key of each amount on each card. */
  function Kept(o: Order, keys: seq<string>): seq<string> {
    if keys == [] then []
    else
      var n := |keys| - 1;
      Kept(o, keys[..n])
      + if keys[n] in o.byKey && CardCharge(o.byKey[keys[n]].payment) !in CardCharges(o, keys[..n])
        then [keys[n]] else []
  }

  function Restricted(byKey: map<string, Settlement>, keys: seq<string>): map<string, Settlement> {
    map k | k in byKey && k in keys :: byKey[k]
  }

  /** `drop_restated_payments`, as a function. */
  function DropRestated(o: Order): Order {
    if o.netTotal.None? || PaidBy(o, o.keys) == o.netTotal.value then o
    else
      var kept := Kept(o, o.keys);
      if PaidBy(o, kept) != o.netTotal.value then o else Order(o.netTotal, kept, Restricted(o.byKey, kept))
  }

  class OrderRows {
    var netTotal: Option<Cents>
    var keys: seq<string>
    var byKey: map<string, Settlement>

    constructor (o: Order)
      ensures View() == o
    {
      netTotal, keys, byKey := o.netTotal, o.keys, o.byKey;
    }

    function View(): Order
      reads this
    {
      Order(netTotal, keys, byKey)
    }

    method TotalOf(which: seq<string>) returns (total: Cents)
      ensures total == PaidBy(View(), which)
    {
      total := 0;
      var i := 0;
      while i < |which|
        invariant 0 <= i <= |which| && total == PaidBy(View(), which[..i])
      {
        assert which[..i + 1][..i] == which[..i];
        if which[i] in byKey {
          total := total + byKey[which[i]].payment.amount;
        }
        i := i + 1;
      }
      assert which[..i] == which;
    }

    /** The first key of each amount on each card. */
    method FirstKeys() returns (kept: seq<string>)
      ensures kept == Kept(View(), keys) && |kept| <= |keys|
    {
      var seen: set<(Cents, string, string)> := {};
      kept := [];
      var i := 0;
      while i < |keys|
        invariant 0 <= i <= |keys| && |kept| <= i
        invariant seen == CardCharges(View(), keys[..i]) && kept == Kept(View(), keys[..i])
      {
        hide CardCharges;
        assert keys[..i + 1][..i] == keys[..i] && keys[..i + 1] == keys[..i] + [keys[i]];
        CardChargesSnoc(View(), keys[..i], keys[i]);
        assert kept + [] == kept && seen + {} == seen;
        if keys[i] in byKey {
          var charge := CardCharge(byKey[keys[i]].payment);
          if charge !in seen {
            kept := kept + [keys[i]];
          }
          seen := seen + {charge};
        }
        i := i + 1;
      }
      assert keys[..i] == keys;
    }

    /** `drop_restated_payments`. */
    method DropRestatedPayments() returns (dropped: nat)
      modifies this
      ensures View() == DropRestated(old(View()))
      ensures dropped == |old(keys)| - |keys|
    {
      if netTotal.None? {
        return 0;
      }
      var total := TotalOf(keys);
      if total == netTotal.value {
        return 0;
      }
      var kept := FirstKeys();
      var keptTotal := TotalOf(kept);
      if keptTotal != netTotal.value {
        return 0;
      }
      dropped := |keys| - |kept|;
      byKey := Restricted(byKey, kept);
      keys := kept;
    }
  }

  lemma CardChargesSnoc(o: Order, keys: seq<string>, key: string)
    ensures CardCharges(o, keys + [key])
         == CardCharges(o, keys) + if key in o.byKey then {CardCharge(o.byKey[key].payment)} else {}
  {
  }

  /** No key of the first repeats what a key of the second says. */
  ghost predicate FirstStatements(o: Order, keys: seq<string>) {
    && (forall k :: k in keys ==> k in o.byKey)
    && forall i, j :: 0 <= i < j < |keys| ==>
                        CardCharge(o.byKey[keys[i]].payment) != CardCharge(o.byKey[keys[j]].payment)
  }

  lemma FirstStatementsSnoc(o: Order, keys: seq<string>, key: string)
    requires FirstStatements(o, keys) && key in o.byKey && CardCharge(o.byKey[key].payment) !in CardCharges(o, keys)
    ensures FirstStatements(o, keys + [key])
  {
    hide CardCharge;
    forall i | 0 <= i < |keys| ensures CardCharge(o.byKey[keys[i]].payment) != CardCharge(o.byKey[key].payment) {
      assert keys[i] in keys;
    }
  }

  lemma {:induction false} KeptAre(o: Order, keys: seq<string>)
    ensures forall k :: k in Kept(o, keys) ==> k in keys && k in o.byKey
    ensures CardCharges(o, Kept(o, keys)) == CardCharges(o, keys)
    ensures FirstStatements(o, Kept(o, keys))
  {
    if keys != [] {
      hide CardCharge, CardCharges, FirstStatements;
      var n := |keys| - 1;
      var before := Kept(o, keys[..n]);
      KeptAre(o, keys[..n]);
      assert keys == keys[..n] + [keys[n]];
      CardChargesSnoc(o, keys[..n], keys[n]);
      CardChargesSnoc(o, before, keys[n]);
      assert before + [] == before;
      if keys[n] in o.byKey && CardCharge(o.byKey[keys[n]].payment) !in CardCharges(o, keys[..n]) {
        FirstStatementsSnoc(o, before, keys[n]);
      }
    }
  }

  /** The settlement at a place is the first in the report of its amount, its kind of card and its card. */
  ghost predicate FirstStated(o: Order, i: int) {
    && 0 <= i < |o.keys| && o.keys[i] in o.byKey
    && forall h :: 0 <= h < i && o.keys[h] in o.byKey ==>
         var p, q := o.byKey[o.keys[h]].payment, o.byKey[o.keys[i]].payment;
         p.amount != q.amount || p.cardType != q.cardType || p.last4 != q.last4
  }

  ghost function FirstStatedIn(o: Order): nat -> bool {
    (i: nat) => FirstStated(o, i)
  }

  function KeyAt(o: Order): nat -> string {
    (i: nat) => if i < |o.keys| then o.keys[i] else ""
  }

  /** What is kept are the first statements, all of them, in the order of the report. */
  lemma {:induction false} KeptAreFirst(o: Order, n: nat) returns (places: seq<nat>)
    requires n <= |o.keys|
    ensures Lists(Kept(o, o.keys[..n]), places, n, FirstStatedIn(o), KeyAt(o))
  {
    hide Lists, FirstStated, Kept;
    if n == 0 {
      places := [];
      NothingKept(o);
      ListsNone(FirstStatedIn(o), KeyAt(o));
    } else {
      var before := KeptAreFirst(o, n - 1);
      KeptNext(o, n - 1);
      ListsNext(Kept(o, o.keys[..n - 1]), before, n - 1, FirstStatedIn(o), KeyAt(o));
      places := if FirstStated(o, n - 1) then before + [n - 1] else before;
    }
  }

  lemma NothingKept(o: Order)
    ensures Kept(o, o.keys[..0]) == []
  {
  }

  lemma KeptNext(o: Order, n: nat)
    requires n < |o.keys|
    ensures Kept(o, o.keys[..n + 1]) == if FirstStated(o, n) then Kept(o, o.keys[..n]) + [o.keys[n]]
            else Kept(o, o.keys[..n])
  {
    FirstIsNew(o, n);
    hide FirstStated, CardCharges, CardCharge;
    assert o.keys[..n + 1][..n] == o.keys[..n] && o.keys[..n + 1][n] == o.keys[n];
  }

  lemma FirstIsNew(o: Order, i: nat)
    requires i < |o.keys|
    ensures FirstStated(o, i)
       <==> o.keys[i] in o.byKey && CardCharge(o.byKey[o.keys[i]].payment) !in CardCharges(o, o.keys[..i])
  {
    if o.keys[i] in o.byKey {
      var mine := CardCharge(o.byKey[o.keys[i]].payment);
      if mine in CardCharges(o, o.keys[..i]) {
        var k :| k in o.keys[..i] && k in o.byKey && CardCharge(o.byKey[k].payment) == mine;
        var h :| 0 <= h < i && o.keys[..i][h] == k;
        assert o.keys[h] == k;
      }
      forall h | 0 <= h < i && o.keys[h] in o.byKey
        ensures CardCharge(o.byKey[o.keys[h]].payment) in CardCharges(o, o.keys[..i])
      {
        assert o.keys[..i][h] == o.keys[h];
      }
    }
  }

  /** What the settlements at some places come to. */
  function AmountsAt(o: Order, places: seq<nat>): Cents {
    Sum(places, (i: nat) => if i < |o.keys| && o.keys[i] in o.byKey then o.byKey[o.keys[i]].payment.amount else 0)
  }

  lemma {:induction false} PaidAtPlaces(o: Order, keys: seq<string>, places: seq<nat>)
    requires |keys| == |places| && forall j :: 0 <= j < |keys| ==> places[j] < |o.keys| && keys[j] == o.keys[places[j]]
    ensures PaidBy(o, keys) == AmountsAt(o, places)
  {
    if keys != [] {
      var n := |keys| - 1;
      PaidAtPlaces(o, keys[..n], places[..n]);
    }
  }

  /** Restatements are dropped exactly when there is a net total that the settlements miss and their first statements
      meet; the order is then those statements, as they were, and otherwise what it was. */
  lemma DropsExactlyWhen(o: Order) returns (all: seq<nat>, firsts: seq<nat>)
    ensures |all| == |o.keys| && forall i :: 0 <= i < |all| ==> all[i] == i
    ensures var left := DropRestated(o);
            if o.netTotal.Some? && AmountsAt(o, all) != o.netTotal.value
            && AmountsAt(o, firsts) == o.netTotal.value then
              && left.netTotal == o.netTotal && Lists(left.keys, firsts, |o.keys|, FirstStatedIn(o), KeyAt(o))
              && (forall k :: k in left.byKey <==> k in o.byKey && k in left.keys)
              && (forall k :: k in left.byKey ==> left.byKey[k] == o.byKey[k])
            else left == o
  {
    all := seq(|o.keys|, i requires 0 <= i < |o.keys| => i);
    firsts := KeptAreFirst(o, |o.keys|);
    assert o.keys[..|o.keys|] == o.keys;
    assert forall i: nat :: FirstStated(o, i) ==> i < |o.keys|;
    hide FirstStated, PaidBy, AmountsAt, Kept;
    PaidAtPlaces(o, o.keys, all);
    PaidAtPlaces(o, Kept(o, o.keys), firsts);
  }

  /** Dropping restatements is done once and is never a guess. Either nothing changes, or what is left
      foots to the order's own net total; what is left is the first statement of every amount on
      every card, untouched; an order that already foots loses nothing. */
  lemma DroppingIsSettled(o: Order)
    ensures DropRestated(DropRestated(o)) == DropRestated(o)
    ensures var left := DropRestated(o);
            left == o || (
              && Some(PaidBy(left, left.keys)) == o.netTotal && Some(PaidBy(o, o.keys)) != o.netTotal
              && CardCharges(left, left.keys) == CardCharges(o, o.keys)
              && (forall k :: k in left.keys ==>
                                k in o.keys && k in left.byKey && k in o.byKey && left.byKey[k] == o.byKey[k])
              && (forall i, j :: 0 <= i < j < |left.keys| ==>
                    CardCharge(left.byKey[left.keys[i]].payment) != CardCharge(left.byKey[left.keys[j]].payment)))
    ensures WellFormed(o) ==> WellFormed(DropRestated(o))
  {
    var left := DropRestated(o);
    if left != o {
      KeptAre(o, o.keys);
      forall k | k in left.keys ensures AmountAt(left, k) == AmountAt(o, k) {
      }
      SumSame(left.keys, (k: string) => AmountAt(left, k), (k: string) => AmountAt(o, k));
      assert CardCharges(left, left.keys) == CardCharges(o, left.keys);
      forall i, j | 0 <= i < j < |left.keys| ensures left.keys[i] != left.keys[j] {
      }
    }
  }
}
