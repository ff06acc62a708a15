/** Settlements folded into shipments: one that foots to its items stands alone, the short ones that
    list the same items are pooled. */
module AmazonCharges {
  import opened Sums
  import opened Calendar
  import opened Ledger
  import opened AmazonOrders
  import opened ItemSignatures

  /** One shipment: the items bought, and every settlement that funded them. */
  datatype Charge = Charge(orderId: string, date: Date, payments: seq<Payment>, items: seq<Item>)

  function ItemsTotal(items: seq<Item>): Cents {
    Sum(items, (i: Item) => i.cents)
  }

  function PaymentsTotal(payments: seq<Payment>): Cents {
    Sum(payments, (p: Payment) => p.amount)
  }

  predicate Foots(st: Settlement) {
    ItemsTotal(st.items) == st.payment.amount
  }

  // ------------------------------------------------------------------ folding

  /** The shipments of the settlements that foot, one each. */
  function Alone(orderId: string, o: Order, keys: seq<string>): seq<Charge> {
    if keys == [] then []
    else
      var n := |keys| - 1;
      Alone(orderId, o, keys[..n])
      + if keys[n] in o.byKey && Foots(o.byKey[keys[n]]) then [One(orderId, o.byKey[keys[n]])] else []
  }

  function One(orderId: string, st: Settlement): Charge {
    Charge(orderId, st.payment.date, [st.payment], st.items)
  }

  /** A pool of short settlements that list the same items. */
  datatype Pool = Pool(signature: string, charge: Charge)

  function Earliest(a: Date, b: Date): Date {
    if a <= b then a else b
  }

  function Joined(c: Charge, p: Payment): Charge {
    c.(date := Earliest(c.date, p.date), payments := c.payments + [p])
  }

  function AddToPools(pools: seq<Pool>, orderId: string, st: Settlement): seq<Pool> {
    if pools == [] then [Pool(Signature(st.items), One(orderId, st))]
    else if pools[0].signature
         == Signature(st.items) then [pools[0].(charge := Joined(pools[0].charge, st.payment))] + pools[1..]
    else [pools[0]] + AddToPools(pools[1..], orderId, st)
  }

  function Pools(orderId: string, o: Order, keys: seq<string>): seq<Pool> {
    if keys == [] then []
    else
      var n := |keys| - 1;
      var before := Pools(orderId, o, keys[..n]);
      if keys[n] in o.byKey && !Foots(o.byKey[keys[n]]) then AddToPools(before, orderId, o.byKey[keys[n]]) else before
  }

  function ChargesOf(pools: seq<Pool>): (charges: seq<Charge>)
    ensures |charges| == |pools| && forall i :: 0 <= i < |pools| ==> charges[i] == pools[i].charge
  {
    seq(|pools|, i requires 0 <= i < |pools| => pools[i].charge)
  }

  /** `charges_for_order`, as a function. */
  function ChargesFor(orderId: string, o: Order): seq<Charge> {
    Alone(orderId, o, o.keys) + ChargesOf(Pools(orderId, o, o.keys))
  }

  /** The pools as the loop keeps them: their signatures in first-seen order, and a table. */
  ghost predicate PoolsAre(pools: seq<Pool>, order: seq<string>, table: map<string, Charge>) {
    && |pools| == |order|
    && (forall i :: 0 <= i < |order| ==> order[i] in table && pools[i] == Pool(order[i], table[order[i]]))
    && (forall i, j :: 0 <= i < j < |order| ==> order[i] != order[j])
    && (forall k :: k in table ==> k in order)
  }

  ghost predicate SignaturesApart(pools: seq<Pool>) {
    forall i, j :: 0 <= i < j < |pools| ==> pools[i].signature != pools[j].signature
  }

  lemma {:induction false} AddToPoolsAt(pools: seq<Pool>, orderId: string, st: Settlement, i: nat)
    requires SignaturesApart(pools) && i < |pools| && pools[i].signature == Signature(st.items)
    ensures AddToPools(pools, orderId, st) == pools[i := pools[i].(charge := Joined(pools[i].charge, st.payment))]
  {
    hide Signature, Joined;
    if i != 0 {
      assert pools[0].signature != pools[i].signature;
      assert forall j, k :: 0 <= j < k < |pools[1..]| ==>
                              pools[1..][j] == pools[j + 1] && pools[1..][k] == pools[k + 1];
      AddToPoolsAt(pools[1..], orderId, st, i - 1);
    }
  }

  lemma {:induction false} AddToPoolsNew(pools: seq<Pool>, orderId: string, st: Settlement)
    requires forall i :: 0 <= i < |pools| ==> pools[i].signature != Signature(st.items)
    ensures AddToPools(pools, orderId, st) == pools + [Pool(Signature(st.items), One(orderId, st))]
  {
    hide Signature, One;
    if pools != [] {
      AddToPoolsNew(pools[1..], orderId, st);
    }
  }

  /** One short settlement joins the pool of its signature, or opens it. */
  lemma PoolOne(pools: seq<Pool>, order: seq<string>, table: map<string, Charge>, orderId: string, st: Settlement)
    requires PoolsAre(pools, order, table)
    ensures var signature := Signature(st.items);
            if signature in table
            then PoolsAre(AddToPools(pools, orderId, st), order,
                          table[signature := Joined(table[signature], st.payment)])
            else PoolsAre(AddToPools(pools, orderId, st), order + [signature], table[signature := One(orderId, st)])
  {
    hide Signature, AddToPools;
    var signature := Signature(st.items);
    if signature in table {
      var i :| 0 <= i < |order| && order[i] == signature;
      AddToPoolsAt(pools, orderId, st, i);
    } else {
      AddToPoolsNew(pools, orderId, st);
    }
  }

  /** `charges_for_order`. */
  method ChargesForOrder(orderId: string, o: Order) returns (charges: seq<Charge>)
    ensures charges == ChargesFor(orderId, o)
  {
    hide PoolsAre, AddToPools, Signature, Foots;
    charges := [];
    var poolKeys: seq<string>, pools: map<string, Charge> := [], map[];
    NoPools();
    var i := 0;
    while i < |o.keys|
      invariant 0 <= i <= |o.keys|
      invariant charges == Alone(orderId, o, o.keys[..i])
      invariant PoolsAre(Pools(orderId, o, o.keys[..i]), poolKeys, pools)
    {
      assert o.keys[..i + 1][..i] == o.keys[..i];
      if o.keys[i] in o.byKey {
        var st := o.byKey[o.keys[i]];
        if Foots(st) {
          charges := charges + [Charge(orderId, st.payment.date, [st.payment], st.items)];
        } else {
          PoolOne(Pools(orderId, o, o.keys[..i]), poolKeys, pools, orderId, st);
          var signature := Signature(st.items);
          if signature in pools {
            var c := pools[signature];
            pools := pools[signature := Joined(c, st.payment)];
          } else {
            poolKeys := poolKeys + [signature];
            pools := pools[signature := Charge(orderId, st.payment.date, [st.payment], st.items)];
          }
        }
      }
      i := i + 1;
    }
    assert o.keys[..i] == o.keys;
    ghost var spec := Pools(orderId, o, o.keys);
    PoolsTell(spec, poolKeys, pools);
    var j := 0;
    while j < |poolKeys|
      invariant 0 <= j <= |poolKeys|
      invariant charges == Alone(orderId, o, o.keys) + ChargesOf(spec)[..j]
    {
      charges := charges + [pools[poolKeys[j]]];
      j := j + 1;
    }
    assert ChargesOf(spec)[..j] == ChargesOf(spec);
  }

  lemma NoPools()
    ensures PoolsAre([], [], map[])
  {
  }

  lemma PoolsTell(pools: seq<Pool>, order: seq<string>, table: map<string, Charge>)
    requires PoolsAre(pools, order, table)
    ensures |pools| == |order| && forall i :: 0 <= i < |order| ==>
                                                order[i] in table && ChargesOf(pools)[i] == table[order[i]]
  {
  }

  // ------------------------------------------------------------------ what folding keeps

  function PaymentsAt(o: Order, keys: seq<string>): seq<Payment> {
    if keys == [] then []
    else
      var n := |keys| - 1;
      PaymentsAt(o, keys[..n]) + if keys[n] in o.byKey then [o.byKey[keys[n]].payment] else []
  }

  function AllPayments(charges: seq<Charge>): seq<Payment> {
    if charges == [] then [] else AllPayments(charges[..|charges| - 1]) + charges[|charges| - 1].payments
  }

  function PoolPayments(pools: seq<Pool>): seq<Payment> {
    if pools == [] then [] else pools[0].charge.payments + PoolPayments(pools[1..])
  }

  lemma {:induction false} AllPaymentsConcat(a: seq<Charge>, b: seq<Charge>)
    ensures AllPayments(a + b) == AllPayments(a) + AllPayments(b)
  {
    if b == [] {
      assert a + b == a;
    } else {
      AllPaymentsConcat(a, b[..|b| - 1]);
      assert (a + b)[..|a| + |b| - 1] == a + b[..|b| - 1];
    }
  }

  lemma ChargesOfCons(p: Pool, pools: seq<Pool>)
    ensures ChargesOf([p] + pools) == [p.charge] + ChargesOf(pools)
    ensures AllPayments([p.charge]) == p.charge.payments
  {
    assert [p.charge][..0] == [];
  }

  lemma {:induction false} PoolPaymentsAre(pools: seq<Pool>)
    ensures AllPayments(ChargesOf(pools)) == PoolPayments(pools)
  {
    if pools != [] {
      PoolPaymentsAre(pools[1..]);
      assert [pools[0]] + pools[1..] == pools;
      ChargesOfCons(pools[0], pools[1..]);
      hide AllPayments, ChargesOf;
      AllPaymentsConcat([pools[0].charge], ChargesOf(pools[1..]));
    }
  }

  lemma {:induction false} PoolingKeepsPayments(pools: seq<Pool>, orderId: string, st: Settlement)
    ensures multiset(PoolPayments(AddToPools(pools, orderId, st)))
         == multiset(PoolPayments(pools)) + multiset{st.payment}
  {
    hide Signature;
    var after := AddToPools(pools, orderId, st);
    if pools != [] {
      if pools[0].signature == Signature(st.items) {
        assert after[1..] == pools[1..];
      } else {
        PoolingKeepsPayments(pools[1..], orderId, st);
        assert after[1..] == AddToPools(pools[1..], orderId, st);
      }
    }
  }

  lemma AloneKeeps(orderId: string, o: Order, keys: seq<string>, key: string)
    ensures AllPayments(Alone(orderId, o, keys + [key]))
         == AllPayments(Alone(orderId, o, keys))
            + if key in o.byKey && Foots(o.byKey[key]) then [o.byKey[key].payment] else []
  {
    hide Foots;
    assert (keys + [key])[..|keys|] == keys;
    var alone := Alone(orderId, o, keys);
    if key in o.byKey && Foots(o.byKey[key]) {
      AllPaymentsConcat(alone, [One(orderId, o.byKey[key])]);
      assert [One(orderId, o.byKey[key])][..0] == [];
    } else {
      assert alone + [] == alone && AllPayments(alone) + [] == AllPayments(alone);
    }
  }

  /** One more key's payment, to whichever side it goes. */
  lemma PoolsKeep(orderId: string, o: Order, keys: seq<string>, key: string)
    ensures multiset(PoolPayments(Pools(orderId, o, keys + [key])))
         == multiset(PoolPayments(Pools(orderId, o, keys)))
            + multiset(if key in o.byKey && !Foots(o.byKey[key]) then [o.byKey[key].payment] else [])
    ensures PaymentsAt(o, keys + [key]) == PaymentsAt(o, keys) + if key in o.byKey then [o.byKey[key].payment] else []
  {
    hide Foots, AddToPools, PoolPayments;
    assert (keys + [key])[..|keys|] == keys;
    if key in o.byKey && !Foots(o.byKey[key]) {
      PoolingKeepsPayments(Pools(orderId, o, keys), orderId, o.byKey[key]);
    }
  }

  lemma NothingFolded(orderId: string, o: Order)
    ensures PaymentsAt(o, []) == AllPayments(Alone(orderId, o, [])) == PoolPayments(Pools(orderId, o, [])) == []
  {
  }

  lemma {:induction false} FoldingKeepsPayments(orderId: string, o: Order, keys: seq<string>)
    ensures multiset(PaymentsAt(o, keys))
         == multiset(AllPayments(Alone(orderId, o, keys))) + multiset(PoolPayments(Pools(orderId, o, keys)))
  {
    hide *;
    if keys == [] {
      NothingFolded(orderId, o);
    } else {
      var n := |keys| - 1;
      FoldingKeepsPayments(orderId, o, keys[..n]);
      AloneKeeps(orderId, o, keys[..n], keys[n]);
      PoolsKeep(orderId, o, keys[..n], keys[n]);
      assert keys == keys[..n] + [keys[n]];
    }
  }

  /** A settlement of the order that does not foot and lists items of this signature. */
  ghost predicate ShortOf(o: Order, keys: seq<string>, p: Payment, signature: string) {
    exists k :: k in keys && k in o.byKey && o.byKey[k].payment == p && !Foots(o.byKey[k])
                && Signature(o.byKey[k].items) == signature
  }

  /** A shipment funded by short settlements, dated when the first of them was. */
  ghost predicate PoolOk(orderId: string, o: Order, keys: seq<string>, p: Pool) {
    && p.charge.orderId == orderId && p.signature == Signature(p.charge.items)
    && (forall x :: x in p.charge.payments ==> ShortOf(o, keys, x, p.signature) && p.charge.date <= x.date)
    && (exists x :: x in p.charge.payments && p.charge.date == x.date)
  }

  ghost predicate PoolsOk(orderId: string, o: Order, keys: seq<string>, pools: seq<Pool>) {
    && (forall p :: p in pools ==> PoolOk(orderId, o, keys, p))
    && SignaturesApart(pools)
    && (forall k :: k in keys && k in o.byKey && !Foots(o.byKey[k]) ==>
          exists p :: p in pools && p.signature == Signature(o.byKey[k].items)
                      && o.byKey[k].payment in p.charge.payments)
  }

  lemma MoreKeys(o: Order, keys: seq<string>, key: string)
    ensures forall p, signature :: ShortOf(o, keys, p, signature) ==> ShortOf(o, keys + [key], p, signature)
  {
    hide Foots, Signature;
    forall p, signature | ShortOf(o, keys, p, signature) ensures ShortOf(o, keys + [key], p, signature) {
      var k :| k in keys && k in o.byKey && o.byKey[k].payment == p && !Foots(o.byKey[k])
        && Signature(o.byKey[k].items) == signature;
      assert k in keys + [key];
    }
  }

  lemma PoolsStayOk(orderId: string, o: Order, keys: seq<string>, key: string, pools: seq<Pool>)
    requires PoolsOk(orderId, o, keys, pools) && (key !in o.byKey || Foots(o.byKey[key]))
    ensures PoolsOk(orderId, o, keys + [key], pools)
  {
    hide Foots, Signature, ShortOf;
    MoreKeys(o, keys, key);
  }

  /** Where a short settlement's pool stands among the pools, if it is there. */
  function PlaceOf(pools: seq<Pool>, signature: string): (i: nat)
    ensures i <= |pools| && (i < |pools| ==> pools[i].signature == signature)
    ensures forall j :: 0 <= j < i ==> pools[j].signature != signature
  {
    if pools == [] || pools[0].signature == signature then 0 else 1 + PlaceOf(pools[1..], signature)
  }

  lemma AddedPools(pools: seq<Pool>, orderId: string, st: Settlement)
    requires SignaturesApart(pools)
    ensures var i := PlaceOf(pools, Signature(st.items));
            AddToPools(pools, orderId, st) ==
            if i < |pools| then pools[i := pools[i].(charge := Joined(pools[i].charge, st.payment))]
            else pools + [Pool(Signature(st.items), One(orderId, st))]
  {
    hide Signature, AddToPools;
    var i := PlaceOf(pools, Signature(st.items));
    if i < |pools| {
      AddToPoolsAt(pools, orderId, st, i);
    } else {
      AddToPoolsNew(pools, orderId, st);
    }
  }

  lemma JoinedIsOk(orderId: string, o: Order, keys: seq<string>, key: string, p: Pool)
    requires PoolOk(orderId, o, keys, p) && key in o.byKey && !Foots(o.byKey[key])
             && p.signature == Signature(o.byKey[key].items)
    ensures PoolOk(orderId, o, keys + [key], p.(charge := Joined(p.charge, o.byKey[key].payment)))
  {
    hide Foots, Signature;
    MoreKeys(o, keys, key);
    var st := o.byKey[key];
    assert key in keys + [key];
    assert ShortOf(o, keys + [key], st.payment, p.signature);
    var was :| was in p.charge.payments && p.charge.date == was.date;
    var after := Joined(p.charge, st.payment);
    hide ShortOf;
    assert was in after.payments && st.payment in after.payments;
  }

  lemma OpenedIsOk(orderId: string, o: Order, keys: seq<string>, key: string)
    requires key in o.byKey && !Foots(o.byKey[key])
    ensures PoolOk(orderId, o, keys + [key], Pool(Signature(o.byKey[key].items), One(orderId, o.byKey[key])))
  {
    hide Foots, Signature;
    assert key in keys + [key];
    assert ShortOf(o, keys + [key], o.byKey[key].payment, Signature(o.byKey[key].items));
    hide ShortOf;
    assert o.byKey[key].payment in One(orderId, o.byKey[key]).payments;
  }

  lemma PoolsGrowOk(orderId: string, o: Order, keys: seq<string>, key: string, pools: seq<Pool>)
    requires PoolsOk(orderId, o, keys, pools) && key in o.byKey && !Foots(o.byKey[key])
    ensures PoolsOk(orderId, o, keys + [key], AddToPools(pools, orderId, o.byKey[key]))
  {
    hide AddToPools, Foots, Signature, ShortOf, PoolOk, PlaceOf;
    var st := o.byKey[key];
    var i := PlaceOf(pools, Signature(st.items));
    AddedPools(pools, orderId, st);
    var after := AddToPools(pools, orderId, st);
    EachGrowsOk(orderId, o, keys, key, pools, after, i);
    PoolsCover(orderId, o, keys, key, pools, after, i);
  }

  lemma EachGrowsOk(orderId: string, o: Order, keys: seq<string>, key: string, pools: seq<Pool>, after: seq<Pool>,
                    i: nat)
    requires PoolsOk(orderId, o, keys, pools) && key in o.byKey && !Foots(o.byKey[key])
    requires i == PlaceOf(pools, Signature(o.byKey[key].items))
    requires after == if i < |pools| then pools[i := pools[i].(charge := Joined(pools[i].charge, o.byKey[key].payment))]
                      else pools + [Pool(Signature(o.byKey[key].items), One(orderId, o.byKey[key]))]
    ensures forall p :: p in after ==> PoolOk(orderId, o, keys + [key], p)
  {
    hide Foots, Signature, ShortOf, PoolOk, PlaceOf, Joined, One;
    if i < |pools| {
      assert pools[i] in pools;
      JoinedIsOk(orderId, o, keys, key, pools[i]);
    } else {
      OpenedIsOk(orderId, o, keys, key);
    }
    forall p | p in after ensures PoolOk(orderId, o, keys + [key], p) {
      var j :| 0 <= j < |after| && after[j] == p;
      if j < |pools| && j != i {
        assert pools[j] in pools;
        PoolStaysOk(orderId, o, keys, key, pools[j]);
      }
    }
  }

  lemma PoolStaysOk(orderId: string, o: Order, keys: seq<string>, key: string, p: Pool)
    requires PoolOk(orderId, o, keys, p)
    ensures PoolOk(orderId, o, keys + [key], p)
  {
    hide Foots, Signature, ShortOf;
    MoreKeys(o, keys, key);
  }

  lemma PoolsCover(orderId: string, o: Order, keys: seq<string>, key: string, pools: seq<Pool>, after: seq<Pool>,
                   i: nat)
    requires PoolsOk(orderId, o, keys, pools) && key in o.byKey && !Foots(o.byKey[key])
    requires i == PlaceOf(pools, Signature(o.byKey[key].items))
    requires after == if i < |pools| then pools[i := pools[i].(charge := Joined(pools[i].charge, o.byKey[key].payment))]
                      else pools + [Pool(Signature(o.byKey[key].items), One(orderId, o.byKey[key]))]
    ensures forall k :: k in keys + [key] && k in o.byKey && !Foots(o.byKey[k]) ==>
              exists p :: p in after && p.signature == Signature(o.byKey[k].items)
                          && o.byKey[k].payment in p.charge.payments
  {
    hide Foots, Signature, ShortOf, PoolOk, PlaceOf;
    assert after[i] in after && o.byKey[key].payment in after[i].charge.payments;
    forall k | k in keys && k in o.byKey && !Foots(o.byKey[k])
      ensures exists p :: p in after && p.signature == Signature(o.byKey[k].items)
                          && o.byKey[k].payment in p.charge.payments
    {
      var p :| p in pools && p.signature == Signature(o.byKey[k].items) && o.byKey[k].payment in p.charge.payments;
      var j :| 0 <= j < |pools| && pools[j] == p;
      assert after[j] in after && o.byKey[k].payment in after[j].charge.payments;
    }
  }

  lemma {:induction false} PoolsAreOk(orderId: string, o: Order, keys: seq<string>)
    ensures PoolsOk(orderId, o, keys, Pools(orderId, o, keys))
  {
    if keys != [] {
      var n := |keys| - 1;
      PoolsAreOk(orderId, o, keys[..n]);
      assert keys == keys[..n] + [keys[n]];
      hide PoolsOk, AddToPools, Foots;
      if keys[n] in o.byKey && !Foots(o.byKey[keys[n]]) {
        PoolsGrowOk(orderId, o, keys[..n], keys[n], Pools(orderId, o, keys[..n]));
      } else {
        PoolsStayOk(orderId, o, keys[..n], keys[n], Pools(orderId, o, keys[..n]));
      }
    }
  }

  lemma {:induction false} AloneAre(orderId: string, o: Order, keys: seq<string>)
    ensures forall c :: c in Alone(orderId, o, keys) ==>
                          exists k :: k in keys && k in o.byKey && Foots(o.byKey[k]) && c == One(orderId, o.byKey[k])
  {
    hide Foots;
    if keys != [] {
      AloneAre(orderId, o, keys[..|keys| - 1]);
      assert keys == keys[..|keys| - 1] + [keys[|keys| - 1]];
    }
  }

  /** A shipment that one settlement foots to alone. */
  ghost predicate FootsAlone(orderId: string, o: Order, c: Charge) {
    exists k :: k in o.keys && k in o.byKey && Foots(o.byKey[k])
                && var st := o.byKey[k]; c == Charge(orderId, st.payment.date, [st.payment], st.items)
  }

  /** A settlement foots when what its items cost adds up to it. */
  lemma FootsMeans(st: Settlement)
    ensures Foots(st) <==> Sum(st.items, (i: Item) => i.cents) == st.payment.amount
  {
  }

  /** A settlement that foots is a shipment by itself. */
  lemma FootingStandsAlone(orderId: string, o: Order, k: string)
    requires k in o.keys && k in o.byKey && Foots(o.byKey[k])
    ensures var st := o.byKey[k];
            Charge(orderId, st.payment.date, [st.payment], st.items) in ChargesFor(orderId, o)
  {
    AloneHas(orderId, o, o.keys, k);
  }

  lemma {:induction false} AloneHas(orderId: string, o: Order, keys: seq<string>, k: string)
    requires k in keys && k in o.byKey && Foots(o.byKey[k])
    ensures One(orderId, o.byKey[k]) in Alone(orderId, o, keys)
  {
    hide Foots, One;
    var n := |keys| - 1;
    assert keys == keys[..n] + [keys[n]];
    if k in keys[..n] {
      AloneHas(orderId, o, keys[..n], k);
    }
  }

  /** A shipment paid in parts: settlements none of which foots, every one listing its items. */
  ghost predicate PaidInParts(orderId: string, o: Order, c: Charge) {
    && c.orderId == orderId
    && (forall x :: x in c.payments ==> ShortOf(o, o.keys, x, Signature(c.items)) && c.date <= x.date)
    && (exists x :: x in c.payments && c.date == x.date)
  }

  /** Folding partitions an order's settlements: each is in one shipment, once; a shipment is one
      settlement that foots, or all the short ones that list the same items; no other. */
  lemma ChargesPartition(orderId: string, o: Order)
    ensures multiset(AllPayments(ChargesFor(orderId, o))) == multiset(PaymentsAt(o, o.keys))
    ensures forall c :: c in ChargesFor(orderId, o) ==> FootsAlone(orderId, o, c) || PaidInParts(orderId, o, c)
    ensures forall k :: k in o.keys && k in o.byKey && !Foots(o.byKey[k]) ==>
              exists c :: c in ChargesOf(Pools(orderId, o, o.keys)) && c in ChargesFor(orderId, o)
                          && PaidInParts(orderId, o, c)
                          && Signature(c.items) == Signature(o.byKey[k].items) && o.byKey[k].payment in c.payments
    ensures var pools := ChargesOf(Pools(orderId, o, o.keys));
            forall i, j :: 0 <= i < j < |pools| ==> Signature(pools[i].items) != Signature(pools[j].items)
  {
    var alone, pools := Alone(orderId, o, o.keys), Pools(orderId, o, o.keys);
    FoldingKeepsPayments(orderId, o, o.keys);
    AllPaymentsConcat(alone, ChargesOf(pools));
    PoolPaymentsAre(pools);
    AloneAre(orderId, o, o.keys);
    PoolsAreOk(orderId, o, o.keys);
    hide Foots, Signature, ShortOf, Alone, Pools, AllPayments, PaymentsAt, PoolPayments;
    forall p | p in pools
      ensures p.charge in ChargesOf(pools) && p.charge in ChargesFor(orderId, o)
              && PaidInParts(orderId, o, p.charge) && Signature(p.charge.items) == p.signature {
      assert PoolOk(orderId, o, o.keys, p);
      var i :| 0 <= i < |pools| && pools[i] == p;
      assert ChargesOf(pools)[i] == p.charge && ChargesFor(orderId, o)[|alone| + i] == p.charge;
    }
    PartsOfCharges(alone, pools);
    assert forall i :: 0 <= i < |pools| ==> pools[i] in pools;
  }

  lemma PartsOfCharges(alone: seq<Charge>, pools: seq<Pool>)
    ensures forall c :: c in alone + ChargesOf(pools) ==> c in alone || exists p :: p in pools && p.charge == c
  {
    forall c | c in ChargesOf(pools) ensures exists p :: p in pools && p.charge == c {
      var i :| 0 <= i < |pools| && ChargesOf(pools)[i] == c;
      assert pools[i] in pools;
    }
  }

  /** A settlement that does not foot to its items. */
  ghost predicate Short(o: Order, k: string) {
    k in o.keys && k in o.byKey && !Foots(o.byKey[k])
  }

  /** The pool of a short settlement, among the charges of pools. */
  ghost predicate PooledWith(orderId: string, o: Order, k: string, c: Charge) {
    && c in ChargesOf(Pools(orderId, o, o.keys)) && c in ChargesFor(orderId, o) && PaidInParts(orderId, o, c)
    && k in o.byKey && Signature(c.items) == Signature(o.byKey[k].items) && o.byKey[k].payment in c.payments
  }

  lemma PoolOf(orderId: string, o: Order, k: string) returns (c: Charge)
    requires Short(o, k)
    ensures PooledWith(orderId, o, k, c)
  {
    hide Foots, Signature, ChargesFor, PaidInParts, Pools;
    ChargesPartition(orderId, o);
    c :| c in ChargesOf(Pools(orderId, o, o.keys)) && c in ChargesFor(orderId, o) && PaidInParts(orderId, o, c)
         && Signature(c.items) == Signature(o.byKey[k].items) && o.byKey[k].payment in c.payments;
  }

  lemma PooledApart(orderId: string, o: Order, c: Charge, d: Charge)
    requires var pools := ChargesOf(Pools(orderId, o, o.keys)); c in pools && d in pools
    requires Signature(d.items) == Signature(c.items)
    ensures c == d
  {
    ChargesPartition(orderId, o);
    hide *;
    var pools := ChargesOf(Pools(orderId, o, o.keys));
    var i :| 0 <= i < |pools| && pools[i] == c;
    var j :| 0 <= j < |pools| && pools[j] == d;
    assert i == j;
  }

  lemma PaidByShort(orderId: string, o: Order, c: Charge, x: Payment) returns (l: string)
    requires PaidInParts(orderId, o, c) && x in c.payments
    ensures Short(o, l) && o.byKey[l].payment == x && Signature(o.byKey[l].items) == Signature(c.items)
  {
    hide Foots, Signature;
    assert ShortOf(o, o.keys, x, Signature(c.items));
    l :| l in o.keys && l in o.byKey && o.byKey[l].payment == x && !Foots(o.byKey[l])
    && Signature(o.byKey[l].items) == Signature(c.items);
  }

  ghost predicate SameItems(o: Order, k: string, l: string) {
    k in o.byKey && l in o.byKey && multiset(o.byKey[k].items) == multiset(o.byKey[l].items)
  }

  /** No item is a forgery: a shipment paid in parts is paid by exactly the short settlements that list the
      same items, row order aside. */
  lemma PartsListTheSameItems(orderId: string, o: Order, k: string) returns (c: Charge)
    requires Short(o, k) && forall l :: l in o.byKey ==> Genuine(o.byKey[l].items)
    ensures c in ChargesFor(orderId, o) && PaidInParts(orderId, o, c) && o.byKey[k].payment in c.payments
    ensures forall x :: x in c.payments ==> exists l :: Short(o, l) && SameItems(o, k, l) && o.byKey[l].payment == x
    ensures forall l :: Short(o, l) && SameItems(o, k, l) ==> o.byKey[l].payment in c.payments
  {
    c := PoolOf(orderId, o, k);
    hide Foots, Genuine, Signature, ChargesFor, PaidInParts, Pools;
    forall x | x in c.payments ensures exists l :: Short(o, l) && SameItems(o, k, l) && o.byKey[l].payment == x {
      var l := PaidByShort(orderId, o, c, x);
      SignatureTellsItems(o.byKey[k].items, o.byKey[l].items);
      assert SameItems(o, k, l);
    }
    forall l | Short(o, l) && SameItems(o, k, l) ensures o.byKey[l].payment in c.payments {
      SignatureTellsItems(o.byKey[k].items, o.byKey[l].items);
      var d := PoolOf(orderId, o, l);
      PooledApart(orderId, o, c, d);
    }
  }
}
