/** What the single-entry commands move, and which of them take each other back. */
module Undoing {
  import opened Sums
  import opened Calendar
  import opened Ledger
  import opened Commands
  import opened Invariants
  import opened Runs
  import opened Payables

  /** A void takes out what the entry did, on every account and day; unvoiding is then never refused
      and brings back the very books there were. */
  lemma VoidIsUndone(s: State, books: Books, id: EntryId, a: AccountId, asOf: Date)
    requires Inv(s, books) && BuildVoid(s, id).Append?
    ensures var t := Step(s, books, VoidEntry(id));
            && Balance(t.entries, a, asOf) == Balance(s.entries, a, asOf) - Effect(s.entries[id], a, asOf)
            && Step(t, books, UnvoidEntry(id)) == s
  {
    var e := s.entries[id];
    var t := s.(entries := s.entries[id := e.(isVoid := true)]);
    RecordOne(s, EntryVoided(id));
    assert Step(s, books, VoidEntry(id)) == t;
    BalanceChanged(s.entries, id, e.(isVoid := true), a, asOf);
    if e.reference.Some? {
      NoHolderAfterVoid(s.entries, id);
    }
    assert BuildUnvoid(t, id) == Append([EntryUnvoided(id)]);
    RecordOne(t, EntryUnvoided(id));
    assert t.entries[id := e] == s.entries;
  }

  lemma NoHolderAfterVoid(entries: seq<Entry>, id: EntryId)
    requires UniqueReferences(entries) && id < |entries| && !entries[id].isVoid && entries[id].reference.Some?
    ensures Holder(entries[id := entries[id].(isVoid := true)], entries[id].reference.value).None?
  {
    var after := entries[id := entries[id].(isVoid := true)];
    forall i | 0 <= i < |after| ensures !Holds(after[i], entries[id].reference.value) {
      if i != id {
        assert i < id || id < i;
      }
    }
  }

  /** Reassigning a line moves its amount from one account to the other, from the entry's day on, and
      nothing else; reassigning it back, if the old account is in use, restores the books. */
  lemma ReassignMovesOneLine(s: State, books: Books, id: EntryId, line: nat, to: AccountId, a: AccountId, asOf: Date)
    requires Inv(s, books) && BuildReassign(s, id, line, to).Append?
    ensures var l := s.entries[id].lines[line];
            var t := Step(s, books, ReassignLine(id, line, to));
            && Balance(t.entries, a, asOf) == Balance(s.entries, a, asOf)
                 + (if s.entries[id].date <= asOf then LineOn(l.(account := to), a) - LineOn(l, a) else 0)
            && (l.account < |s.accounts| && s.accounts[l.account].active ==>
                  Step(t, books, ReassignLine(id, line, l.account)) == s)
  {
    var e := s.entries[id];
    var l := e.lines[line];
    var f := Reassigned(e, line, to);
    var t := s.(entries := s.entries[id := f]);
    RecordOne(s, LineReassigned(id, line, to));
    assert Step(s, books, ReassignLine(id, line, to)) == t;
    SumUpdate(e.lines, line, l.(account := to), (x: Line) => LineOn(x, a));
    BalanceChanged(s.entries, id, f, a, asOf);
    if l.account < |s.accounts| && s.accounts[l.account].active {
      RecordOne(t, LineReassigned(id, line, l.account));
      assert f.lines[line := l] == e.lines;
      assert Reassigned(f, line, l.account) == e;
      assert t.entries[id := e] == s.entries;
    }
  }

  /** A bill received and then voided leaves every balance where it was, and no claim on its reference. */
  lemma BillIsUndone(s: State, books: Books, order: BillOrder, a: AccountId, asOf: Date)
    requires Inv(s, books) && BuildReceiveBill(s, order).Append?
    ensures var t := Step(s, books, ReceiveBill(order));
            var u := Step(t, books, VoidBill(|s.bills|));
            && Balance(t.entries, a, asOf) == Balance(s.entries, a, asOf)
                 + (if order.issued <= asOf then (if a == order.debit then order.amount
                                                  else 0) - (if a == order.payable then order.amount else 0) else 0)
            && Balance(u.entries, a, asOf) == Balance(s.entries, a, asOf)
            && Owed(u.bills) == Owed(s.bills) && BuildVoidBill(t, |s.bills|).Append?
            && Holder(u.entries, ReceivedEntry(s, order).reference.value).None?
  {
    ReceivedBooks(s, books, order);
    var e, bill := ReceivedEntry(s, order), Bill(order.amount, 0, Open, |s.entries|);
    var t := WithBills(s, e, s.bills + [bill]);
    TotalPair(BillLines(order)[0], BillLines(order)[1]);
    BalancePosted(s.entries, e, a, asOf);
    SumAppend(s.bills, bill, OwedOn);
    VoidedBillBooks(t, books, |s.bills|);
    ReferenceWasFree(s, order);
    hide InvBut, Step, BuildReceiveBill, BuildVoidBill, Balance, On, Total;
    var u := Step(t, books, VoidBill(|s.bills|));
    BalanceChanged(t.entries, |s.entries|, e.(isVoid := true), a, asOf);
    SumUpdate(t.bills, |s.bills|, bill.(status := Void), OwedOn);
    forall i | 0 <= i < |u.entries| ensures !Holds(u.entries[i], e.reference.value) {
      if i < |s.entries| {
        assert u.entries[i] == s.entries[i];
      }
    }
  }

  lemma ReferenceWasFree(s: State, order: BillOrder)
    requires BuildReceiveBill(s, order).Append?
    ensures Holder(s.entries, ReceivedEntry(s, order).reference.value).None?
  {
  }
}
