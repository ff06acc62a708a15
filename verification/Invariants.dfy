/** What holds of the books after every command: entries balance, a reference has one live holder,
    a closed year is sealed by its closing entry, and no projection is ever refused. */
module Invariants {
  import opened Options
  import opened Sums
  import opened Calendar
  import opened Ledger
  import opened Commands
  import opened Sweeping
  import opened Texts

  /** At least two lines, on accounts that exist, summing to zero; a payment's reference is its own. */
  ghost predicate EntryOk(e: Entry, id: EntryId, accounts: nat) {
    && 2 <= |e.lines| && Total(e.lines) == 0
    && (forall l :: l in e.lines ==> l.account < accounts)
    && (e.reference.Some? && e.reference.value.PaymentOf? ==> e.reference.value.entry == id)
  }

  ghost predicate UniqueReferences(entries: seq<Entry>) {
    forall i, j :: 0 <= i < j < |entries| && !entries[i].isVoid && !entries[j].isVoid && entries[i].reference.Some?
      ==> entries[i].reference != entries[j].reference
  }

  /** The live entry that closes a year. */
  ghost predicate Seals(e: Entry, year: int, end: Date) {
    Holds(e, Keyed(CloseKey(year))) && e.date == end && e.source == Some(Closing)
  }

  ghost predicate YearOk(s: State, books: Books, year: int)
    requires year in s.years
  {
    var fy := s.years[year];
    && fy.window == FiscalWindow(books.startMonth, year)
    && (fy.closed <==> fy.closing.Some?)
    && (fy.closed ==> fy.closing.value < |s.entries| && Seals(s.entries[fy.closing.value], year, fy.window.end))
  }

  ghost predicate BillOk(entries: seq<Entry>, b: Bill) {
    && 0 < b.amount && 0 <= b.paid <= b.amount
    && (if b.status == Void then b.paid == 0 else b.status == StatusAfter(b.amount, b.paid))
    && b.entry < |entries| && entries[b.entry].source == Some(BillPayable)
  }

  /** The invariant, with the seal of one year left open while its fence is being lifted. */
  ghost predicate InvBut(s: State, books: Books, unsealed: set<int>) {
    && (forall i :: 0 <= i < |s.entries| ==> EntryOk(s.entries[i], i, |s.accounts|))
    && UniqueReferences(s.entries)
    && (forall y :: y in s.years && y !in unsealed ==> YearOk(s, books, y))
    && (forall y :: y in s.years ==> s.years[y].window == FiscalWindow(books.startMonth, y))
    && (forall k :: 0 <= k < |s.bills| ==> BillOk(s.entries, s.bills[k]))
  }

  ghost predicate Inv(s: State, books: Books) {
    InvBut(s, books, {})
  }

  /** The years a client opens are the company's own. */
  ghost predicate Lawful(books: Books, cmd: Command) {
    cmd.OpenYear? ==> cmd.window == FiscalWindow(books.startMonth, cmd.year)
  }

  lemma EmptyBooksAreSound(books: Books)
    ensures Inv(EMPTY, books)
  {
  }

  lemma HolderIsUnique(entries: seq<Entry>, reference: Reference, i: EntryId)
    requires UniqueReferences(entries) && i < |entries| && Holds(entries[i], reference)
    ensures Holder(entries, reference) == Some(i)
  {
    var j := Holder(entries, reference).value;
    assert i < j || j < i || i == j;
  }

  // ------------------------------------------------------------------ one event at a time

  lemma PostKeeps(s: State, books: Books, unsealed: set<int>, event: Event)
    requires InvBut(s, books, unsealed)
    requires event.EntryPosted? && Sound(event)
    requires forall l :: l in event.lines ==> l.account < |s.accounts|
    requires event.reference.Some? ==> Holder(s.entries, event.reference.value).None?
    requires event.reference.Some? && event.reference.value.PaymentOf? ==> event.reference.value.entry == |s.entries|
    ensures Project(s, event).Some?
    ensures Project(s, event).value
         == s.(entries := s.entries + [Entry(event.date, event.lines, event.reference, event.source, false)])
    ensures InvBut(Project(s, event).value, books, unsealed)
  {
    var e := Entry(event.date, event.lines, event.reference, event.source, false);
    var t := s.(entries := s.entries + [e]);
    forall i | 0 <= i < |s.entries| && !s.entries[i].isVoid && s.entries[i].reference.Some?
      ensures s.entries[i].reference != e.reference
    {
      assert e.reference.Some? ==> !Holds(s.entries[i], e.reference.value);
    }
    assert forall y :: y in s.years && y !in unsealed ==> YearOk(t, books, y) by {
      forall y | y in s.years && y !in unsealed ensures YearOk(t, books, y) { assert YearOk(s, books, y); }
    }
    forall k | 0 <= k < |t.bills| ensures BillOk(t.entries, t.bills[k]) { assert BillOk(s.entries, s.bills[k]); }
  }

  /** Any entry that seals no year may be voided. */
  lemma VoidKeeps(s: State, books: Books, unsealed: set<int>, id: EntryId)
    requires InvBut(s, books, unsealed) && id < |s.entries|
    requires forall y :: y in s.years && y !in unsealed && s.years[y].closed ==> s.years[y].closing != Some(id)
    ensures Project(s, EntryVoided(id)) == Some(s.(entries := s.entries[id := s.entries[id].(isVoid := true)]))
    ensures InvBut(Project(s, EntryVoided(id)).value, books, unsealed)
  {
    var t := s.(entries := s.entries[id := s.entries[id].(isVoid := true)]);
    forall y | y in t.years && y !in unsealed ensures YearOk(t, books, y) { assert YearOk(s, books, y); }
    forall k | 0 <= k < |t.bills| ensures BillOk(t.entries, t.bills[k]) { assert BillOk(s.entries, s.bills[k]); }
    forall i | 0 <= i < |t.entries|
      ensures EntryOk(t.entries[i], i, |t.accounts|)
    {
      assert EntryOk(s.entries[i], i, |s.accounts|);
    }
  }

  lemma UnvoidKeeps(s: State, books: Books, id: EntryId)
    requires Inv(s, books) && BuildUnvoid(s, id).Append?
    ensures Project(s, EntryUnvoided(id)).Some? && Inv(Project(s, EntryUnvoided(id)).value, books)
  {
    var e := s.entries[id];
    var t := s.(entries := s.entries[id := e.(isVoid := false)]);
    assert e.reference.Some? ==> Holder(s.entries, e.reference.value).None?;
    forall i | 0 <= i < |s.entries| && i != id && !s.entries[i].isVoid && s.entries[i].reference.Some?
      ensures s.entries[i].reference != e.reference
    {
      assert e.reference.Some? ==> !Holds(s.entries[i], e.reference.value);
    }
    forall y | y in t.years ensures YearOk(t, books, y) { assert YearOk(s, books, y); }
    forall k | 0 <= k < |t.bills| ensures BillOk(t.entries, t.bills[k]) { assert BillOk(s.entries, s.bills[k]); }
    forall i | 0 <= i < |t.entries|
      ensures EntryOk(t.entries[i], i, |t.accounts|)
    {
      assert EntryOk(s.entries[i], i, |s.accounts|);
    }
  }

  lemma ReassignKeeps(s: State, books: Books, id: EntryId, line: nat, to: AccountId)
    requires Inv(s, books) && BuildReassign(s, id, line, to).Append?
    ensures Project(s, LineReassigned(id, line, to)).Some? && Inv(Project(s, LineReassigned(id, line, to)).value, books)
  {
    var e := s.entries[id];
    var f := Reassigned(e, line, to);
    var t := s.(entries := s.entries[id := f]);
    SumUpdate(e.lines, line, f.lines[line], (l: Line) => l.amount);
    assert EntryOk(e, id, |s.accounts|);
    assert EntryOk(f, id, |t.accounts|);
    forall i | 0 <= i < |t.entries|
      ensures EntryOk(t.entries[i], i, |t.accounts|)
    {
      assert EntryOk(s.entries[i], i, |s.accounts|);
    }
    forall y | y in t.years ensures YearOk(t, books, y) { assert YearOk(s, books, y); }
    forall k | 0 <= k < |t.bills| ensures BillOk(t.entries, t.bills[k]) { assert BillOk(s.entries, s.bills[k]); }
  }

  lemma AccountsKeep(s: State, books: Books, accounts: seq<Account>)
    requires Inv(s, books) && |s.accounts| <= |accounts|
    ensures Inv(s.(accounts := accounts), books)
  {
    var t := s.(accounts := accounts);
    forall y | y in t.years ensures YearOk(t, books, y) { assert YearOk(s, books, y); }
    forall i | 0 <= i < |t.entries|
      ensures EntryOk(t.entries[i], i, |t.accounts|)
    {
      assert EntryOk(s.entries[i], i, |s.accounts|);
    }
  }

  lemma YearsKeep(s: State, books: Books, unsealed: set<int>, year: int, fy: FiscalYear)
    requires InvBut(s, books, unsealed)
    requires YearOk(s.(years := s.years[year := fy]), books, year)
    ensures InvBut(s.(years := s.years[year := fy]), books, unsealed - {year})
  {
    var t := s.(years := s.years[year := fy]);
    forall y | y in t.years && y !in unsealed - {year} ensures YearOk(t, books, y) {
      if y != year { assert YearOk(s, books, y); }
    }
  }

  lemma BillsKeep(s: State, books: Books, bills: seq<Bill>)
    requires Inv(s, books)
    requires forall k :: 0 <= k < |bills| ==> BillOk(s.entries, bills[k])
    ensures Inv(s.(bills := bills), books)
  {
    var t := s.(bills := bills);
    forall y | y in t.years ensures YearOk(t, books, y) { assert YearOk(s, books, y); }
  }

  // ------------------------------------------------------------------ one command at a time

  lemma PostCommandKeeps(s: State, books: Books, post: Post, fenced: bool)
    requires Inv(s, books) && BuildPost(s, post, fenced).Append? && Sound(Posting(post))
    ensures forall l :: l in post.lines ==> l.account < |s.accounts|
    ensures Project(s, Posting(post)) == Some(s.(entries := s.entries + [Posted(post)]))
    ensures Inv(Project(s, Posting(post)).value, books)
    ensures Record(s, [Posting(post)]) == Project(s, Posting(post))
  {
    forall l | l in post.lines ensures l.account < |s.accounts| {
      var i :| 0 <= i < |post.lines| && post.lines[i] == l;
      assert AccountsOf(post.lines)[i] in AccountsOf(post.lines);
    }
    PostKeeps(s, books, {}, Posting(post));
    RecordOne(s, Posting(post));
  }

  /** The entry a post becomes. */
  function Posted(post: Post): Entry {
    Entry(post.date, post.lines, if post.reference.Some? then Some(Keyed(post.reference.value))
          else None, post.source, false)
  }

  lemma VoidCommandKeeps(s: State, books: Books, id: EntryId)
    requires Inv(s, books) && BuildVoid(s, id).Append?
    ensures Project(s, EntryVoided(id)).Some? && Inv(Project(s, EntryVoided(id)).value, books)
  {
    forall y | y in s.years && s.years[y].closed ensures s.years[y].closing != Some(id) {
      assert YearOk(s, books, y);
      FiscalYearsTile(books.startMonth, y, y, s.years[y].window.end);
    }
    VoidKeeps(s, books, {}, id);
  }

  lemma OpenYearKeeps(s: State, books: Books, year: int)
    requires Inv(s, books) && year !in s.years
    ensures var event := YearOpened(year, FiscalWindow(books.startMonth, year));
            && Project(s, event)
               == Some(s.(years := s.years[year := FiscalYear(FiscalWindow(books.startMonth, year), false, None)]))
            && Inv(Project(s, event).value, books)
  {
    YearsKeep(s, books, {}, year, FiscalYear(FiscalWindow(books.startMonth, year), false, None));
    assert {} - {year} == {};
  }

  lemma ReceiveBillKeeps(s: State, books: Books, order: BillOrder)
    requires Inv(s, books) && BuildReceiveBill(s, order).Append?
    ensures Record(s, BuildReceiveBill(s, order).events).Some?
    ensures Inv(Record(s, BuildReceiveBill(s, order).events).value, books)
  {
    var events := BuildReceiveBill(s, order).events;
    TotalPair(BillLines(order)[0], BillLines(order)[1]);
    assert order.debit in [order.debit, order.payable] && order.payable in [order.debit, order.payable];
    PostKeeps(s, books, {}, events[0]);
    var t := Project(s, events[0]).value;
    assert events == [events[0]] + [events[1]];
    RecordCons(s, events[0], [events[1]]);
    RecordOne(t, events[1]);
    BillsKeep(t, books, t.bills + [Bill(order.amount, 0, Open, |s.entries|)]);
  }

  lemma PaymentPosts(s: State, books: Books, cmd: Command)
    requires Inv(s, books) && cmd.PayBill? && Build(s, books, cmd).Append?
    ensures cmd.bill < |s.bills| && s.bills[cmd.bill].status != Void
            && cmd.applied <= s.bills[cmd.bill].amount - s.bills[cmd.bill].paid
    ensures var event := EntryPosted(cmd.paidOn, PaymentLines(cmd.applied, cmd.from, cmd.payable),
                                     Some(PaymentOf(cmd.bill, |s.entries|)), Some(BillPayment));
            && Build(s, books, cmd).events == [event] + [BillPaymentApplied(cmd.bill, |s.entries|, cmd.applied)]
            && Sound(event) && Project(s, event).Some? && Inv(Project(s, event).value, books)
            && Project(s, event).value.bills == s.bills
  {
    var event := Build(s, books, cmd).events[0];
    var lines := PaymentLines(cmd.applied, cmd.from, cmd.payable);
    TotalPair(lines[0], lines[1]);
    assert cmd.payable in [cmd.payable, cmd.from] && cmd.from in [cmd.payable, cmd.from];
    forall i | 0 <= i < |s.entries| ensures !Holds(s.entries[i], PaymentOf(cmd.bill, |s.entries|)) {
      assert EntryOk(s.entries[i], i, |s.accounts|);
    }
    hide InvBut, Total, FencedOn;
    PostKeeps(s, books, {}, event);
  }

  /** Applying a positive payment within what is owed keeps the books sound. */
  lemma ApplyingKeeps(t: State, books: Books, bill: BillId, payment: EntryId, applied: Cents)
    requires Inv(t, books) && bill < |t.bills| && t.bills[bill].status != Void
             && 0 < applied <= t.bills[bill].amount - t.bills[bill].paid
    ensures Project(t, BillPaymentApplied(bill, payment, applied)).Some?
    ensures Inv(Project(t, BillPaymentApplied(bill, payment, applied)).value, books)
  {
    assert forall k :: 0 <= k < |t.bills| ==> BillOk(t.entries, t.bills[k]);
    hide InvBut;
    BillsKeep(t, books, Project(t, BillPaymentApplied(bill, payment, applied)).value.bills);
  }

  /** A payment is recorded exactly when it is positive; the store's own rule refuses the rest. */
  lemma {:induction false} PayBillKeeps(s: State, books: Books, cmd: Command)
    requires Inv(s, books) && cmd.PayBill? && Build(s, books, cmd).Append?
    ensures Record(s, Build(s, books, cmd).events).Some? <==> 0 < cmd.applied
    ensures 0 < cmd.applied ==> Inv(Record(s, Build(s, books, cmd).events).value, books)
  {
    hide InvBut, Build, Project, Record, PaymentLines;
    PaymentPosts(s, books, cmd);
    var events := Build(s, books, cmd).events;
    var t := Project(s, events[0]).value;
    RecordCons(s, events[0], [events[1]]);
    RecordOne(t, events[1]);
    if 0 < cmd.applied {
      ApplyingKeeps(t, books, cmd.bill, |s.entries|, cmd.applied);
    }
  }

  lemma VoidBillKeeps(s: State, books: Books, bill: BillId)
    requires Inv(s, books) && BuildVoidBill(s, bill).Append?
    ensures Record(s, BuildVoidBill(s, bill).events).Some?
    ensures Inv(Record(s, BuildVoidBill(s, bill).events).value, books)
  {
    var events := BuildVoidBill(s, bill).events;
    var b := s.bills[bill];
    assert BillOk(s.entries, b);
    forall y | y in s.years && s.years[y].closed
      ensures s.years[y].closing != Some(b.entry)
    {
      assert YearOk(s, books, y);
    }
    VoidKeeps(s, books, {}, b.entry);
    var t := Project(s, events[0]).value;
    assert events == [events[0]] + [events[1]];
    RecordCons(s, events[0], [events[1]]);
    RecordOne(t, events[1]);
    forall k | 0 <= k < |t.bills|
      ensures BillOk(t.entries, Project(t, events[1]).value.bills[k])
    {
      assert BillOk(t.entries, t.bills[k]);
    }
    BillsKeep(t, books, Project(t, events[1]).value.bills);
  }

  function VoidingHolder(s: State, reference: Reference): seq<Event> {
    var id := Holder(s.entries, reference);
    if id.Some? then [EntryVoided(id.value)] else []
  }

  /** Voiding the holder of a reference, if there is one, while a year's fence is being lifted. */
  lemma VoidingKeeps(s: State, books: Books, year: int, reference: Reference)
    requires InvBut(s, books, {year})
    requires reference == Keyed(CloseKey(year)) || reference == Keyed(AllocationKey(year))
    ensures Record(s, VoidingHolder(s, reference)) == Some(VoidedHolder(s, reference))
    ensures InvBut(VoidedHolder(s, reference), books, {year})
  {
    var id := Holder(s.entries, reference);
    if id.Some? {
      forall y | y in s.years && y != year && s.years[y].closed
        ensures s.years[y].closing != id
      {
        assert YearOk(s, books, y);
      }
      hide InvBut;
      VoidKeeps(s, books, {year}, id.value);
      RecordOne(s, EntryVoided(id.value));
    }
  }

  lemma ReopenEvents(s: State, year: int)
    requires BuildReopen(s, year).Append?
    requires Holder(VoidedHolder(s, Keyed(AllocationKey(year))).entries, Keyed(CloseKey(year)))
          == Holder(s.entries, Keyed(CloseKey(year)))
    ensures BuildReopen(s, year).events
         == VoidingHolder(s, Keyed(AllocationKey(year)))
            + VoidingHolder(VoidedHolder(s, Keyed(AllocationKey(year))), Keyed(CloseKey(year)))
            + [YearReopened(year)]
  {
    hide Holder;
  }

  lemma FenceDown(u: State, books: Books, year: int)
    requires InvBut(u, books, {year})
    ensures var t := if year !in u.years then u
                     else u.(years := u.years[year := u.years[year].(closed := false, closing := None)]);
            Record(u, [YearReopened(year)]) == Some(t) && Inv(t, books)
  {
    RecordOne(u, YearReopened(year));
    if year in u.years {
      YearsKeep(u, books, {year}, year, u.years[year].(closed := false, closing := None));
      assert {year} - {year} == {};
    }
  }

  lemma {:induction false} ReopenKeeps(s: State, books: Books, year: int)
    requires Inv(s, books) && BuildReopen(s, year).Append?
    ensures Record(s, BuildReopen(s, year).events) == Some(Reopened(s, year))
    ensures Inv(Reopened(s, year), books)
  {
    var t := VoidedHolder(s, Keyed(AllocationKey(year)));
    var u := VoidedHolder(t, Keyed(CloseKey(year)));
    assert InvBut(s, books, {year}) && UniqueReferences(s.entries);
    HolderSurvives(s.entries, Keyed(AllocationKey(year)), Keyed(CloseKey(year)));
    hide InvBut, UniqueReferences, BuildReopen, Record, Holder, VoidingHolder;
    ReopenEvents(s, year);
    VoidingKeeps(s, books, year, Keyed(AllocationKey(year)));
    VoidingKeeps(t, books, year, Keyed(CloseKey(year)));
    hide VoidedHolder;
    FenceDown(u, books, year);
    RecordConcat(s, VoidingHolder(s, Keyed(AllocationKey(year))), VoidingHolder(t, Keyed(CloseKey(year))));
    RecordConcat(s, VoidingHolder(s, Keyed(AllocationKey(year))) + VoidingHolder(t, Keyed(CloseKey(year))),
                 [YearReopened(year)]);
  }

  function VoidedHolder(s: State, reference: Reference): State {
    var id := Holder(s.entries, reference);
    if id.Some? then s.(entries := s.entries[id.value := s.entries[id.value].(isVoid := true)]) else s
  }

  /** The books after a reopen: allocation and closing entry void, fence down. */
  function Reopened(s: State, year: int): State {
    var t := VoidedHolder(VoidedHolder(s, Keyed(AllocationKey(year))), Keyed(CloseKey(year)));
    if year in t.years then t.(years := t.years[year := t.years[year].(closed := false, closing := None)]) else t
  }

  /** Voiding the holder of one reference leaves the holder of another. */
  lemma HolderSurvives(entries: seq<Entry>, voided: Reference, other: Reference)
    requires UniqueReferences(entries) && voided != other
    ensures var id := Holder(entries, voided);
            var after := if id.Some? then entries[id.value := entries[id.value].(isVoid := true)] else entries;
            Holder(after, other) == Holder(entries, other) && Holder(after, voided).None?
  {
    var id := Holder(entries, voided);
    if id.Some? {
      var after := entries[id.value := entries[id.value].(isVoid := true)];
      assert UniqueReferences(after);
      var h := Holder(entries, other);
      if h.Some? {
        assert Holds(after[h.value], other);
        HolderIsUnique(after, other, h.value);
      } else {
        forall i | 0 <= i < |after| ensures !Holds(after[i], other) { assert !Holds(entries[i], other); }
      }
      forall i | 0 <= i < |after| ensures !Holds(after[i], voided) {
        assert i == id.value || !Holds(entries[i], voided);
      }
    }
  }

  /** The books after a close: the year opened if it was not, the closing entry, the allocation
      when there is one, and the fence up. */
  function AfterClose(s: State, books: Books, year: int, posts: seq<Entry>): State {
    s.(entries := s.entries + posts,
       years := s.years[year := FiscalYear(YearWindow(s, books, year), true, Some(|s.entries|))])
  }

  /** What a successful close posts. */
  function ClosePosts(s: State, books: Books, year: int, target: Target, includeDraws: bool): seq<Entry> {
    var net := NetResult(s, books, year, includeDraws);
    var shares := PartnerShares(books, year, net);
    [Posted(ClosingPost(s, books, year, target.account, includeDraws))]
    + if target.ToPartners? && net != 0 && shares.Done?
      then [Posted(AllocationPost(books, year, YearWindow(s, books, year).end, target.account, net, shares.value))]
           else []
  }

  function Opened(s: State, books: Books, year: int): State {
    if year in s.years then s
    else s.(years := s.years[year := FiscalYear(FiscalWindow(books.startMonth, year), false, None)])
  }

  function OpeningEvents(s: State, books: Books, year: int): seq<Event> {
    if year in s.years then [] else [YearOpened(year, YearWindow(s, books, year))]
  }

  lemma CloseOpens(s: State, books: Books, year: int)
    requires Inv(s, books) && Holder(s.entries, Keyed(CloseKey(year))).None?
    ensures Record(s, OpeningEvents(s, books, year)) == Some(Opened(s, books, year))
    ensures Inv(Opened(s, books, year), books) && !Opened(s, books, year).years[year].closed
    ensures Opened(s, books, year).years[year].window == YearWindow(s, books, year)
         == FiscalWindow(books.startMonth, year)
  {
    if year in s.years {
      assert YearOk(s, books, year);
    } else {
      OpenYearKeeps(s, books, year);
      RecordOne(s, YearOpened(year, YearWindow(s, books, year)));
    }
  }

  /** The books with some entries posted. */
  function With(s: State, posts: seq<Entry>): State {
    s.(entries := s.entries + posts)
  }

  lemma {:induction false} ClosePostsFirst(s: State, books: Books, year: int, target: Target, includeDraws: bool)
    requires Inv(s, books) && Proper(books) && BuildClose(s, books, year, target, includeDraws).Append?
    ensures var closing := ClosingPost(s, books, year, target.account, includeDraws);
            var u := With(Opened(s, books, year), [Posted(closing)]);
            && Record(s, OpeningEvents(s, books, year) + [Posting(closing)]) == Some(u) && Inv(u, books)
            && Seals(u.entries[|s.entries|], year, u.years[year].window.end)
  {
    var closing := ClosingPost(s, books, year, target.account, includeDraws);
    CloseOpens(s, books, year);
    var t := Opened(s, books, year);
    FiscalYearsTile(books.startMonth, year, year, 0);
    ClosingEntryIsSound(s, books, year, target.account, includeDraws);
    InRange(s, closing.lines);
    PostKeeps(t, books, {}, Posting(closing));
    RecordOne(t, Posting(closing));
    RecordConcat(s, OpeningEvents(s, books, year), [Posting(closing)]);
  }

  lemma {:induction false} ClosePostsSecond(s: State, books: Books, year: int, account: AccountId, includeDraws: bool,
                                            u: State)
    requires Inv(s, books) && Proper(books) && BuildClose(s, books, year, ToPartners(account), includeDraws).Append?
    requires NetResult(s, books, year, includeDraws) != 0
    requires u == With(Opened(s, books, year), [Posted(ClosingPost(s, books, year, account, includeDraws))])
             && Inv(u, books)
    ensures var net := NetResult(s, books, year, includeDraws);
            var allocation := AllocationPost(books, year, YearWindow(s, books, year).end, account, net,
                                             PartnerShares(books, year, net).value);
            && Record(u, [Posting(allocation)]) == Some(With(u, [Posted(allocation)]))
               && Inv(With(u, [Posted(allocation)]), books)
  {
    var net := NetResult(s, books, year, includeDraws);
    var shares := PartnerShares(books, year, net).value;
    var allocation := AllocationPost(books, year, YearWindow(s, books, year).end, account, net, shares);
    CloseChecksSecond(s, books, year, account, includeDraws);
    assert allocation.reference == Some(AllocationKey(year));
    hide BuildClose, NetResult, PartnerShares, YearWindow, AllocationPost, InvBut, Total, Holder;
    SharesAddBack(books, year, net);
    AllocationIsSound(books, year, allocation.date, account, net, shares);
    InRange(s, allocation.lines);
    FreeAfterClosing(s, books, year, Posted(ClosingPost(s, books, year, account, includeDraws)), u);
    PostKeeps(u, books, {}, Posting(allocation));
    RecordOne(u, Posting(allocation));
  }

  lemma FreeAfterClosing(s: State, books: Books, year: int, closing: Entry, u: State)
    requires u == With(Opened(s, books, year), [closing]) && closing.reference == Some(Keyed(CloseKey(year)))
    requires Holder(s.entries, Keyed(AllocationKey(year))).None?
    ensures Holder(u.entries, Keyed(AllocationKey(year))).None?
  {
    forall i | 0 <= i < |u.entries| ensures !Holds(u.entries[i], Keyed(AllocationKey(year))) {
      assert i < |s.entries| ==> u.entries[i] == s.entries[i] && !Holds(s.entries[i], Keyed(AllocationKey(year)));
    }
  }

  lemma CloseChecksSecond(s: State, books: Books, year: int, account: AccountId, includeDraws: bool)
    requires BuildClose(s, books, year, ToPartners(account), includeDraws).Append?
             && NetResult(s, books, year, includeDraws) != 0
    ensures var net := NetResult(s, books, year, includeDraws);
            var shares := PartnerShares(books, year, net);
            && shares.Done?
            && var allocation :=
                 AllocationPost(books, year, YearWindow(s, books, year).end, account, net, shares.value);
               CheckAccounts(s, AccountsOf(allocation.lines)).None?
               && Holder(s.entries, Keyed(AllocationKey(year))).None?
    ensures ClosingPost(s, books, year, account, includeDraws).reference == Some(CloseKey(year))
  {
    hide CheckAccounts, Holder, CheckCanClose, SweptBy, YearWindow, ShareLines, PartnerShares, NetResult, ClosingLines,
         FencedOn;
  }

  /** What a successful close appends: the year if it was never opened, the posts, the fence. */
  lemma CloseShape(s: State, books: Books, year: int, target: Target, includeDraws: bool)
    requires BuildClose(s, books, year, target, includeDraws).Append?
    ensures Holder(s.entries, Keyed(CloseKey(year))).None?
    ensures var net := NetResult(s, books, year, includeDraws);
            var shares := PartnerShares(books, year, net);
            var closing := ClosingPost(s, books, year, target.account, includeDraws);
            var first := OpeningEvents(s, books, year) + [Posting(closing)];
            if target.ToPartners? && net != 0 then
              var allocation := AllocationPost(books, year, YearWindow(s, books, year).end, target.account, net,
                                               shares.value);
              && shares.Done?
              && BuildClose(s, books, year, target, includeDraws).events
                 == first + [Posting(allocation)] + [YearClosed(year, |s.entries|)]
              && ClosePosts(s, books, year, target, includeDraws) == [Posted(closing)] + [Posted(allocation)]
            else
              && BuildClose(s, books, year, target, includeDraws).events == first + [YearClosed(year, |s.entries|)]
              && ClosePosts(s, books, year, target, includeDraws) == [Posted(closing)]
  {
  }

  lemma SealedIsAfterClose(s: State, books: Books, year: int, posts: seq<Entry>)
    ensures var u := With(Opened(s, books, year), posts);
            u.(years := u.years[year := FiscalYear(u.years[year].window, true, Some(|s.entries|))])
            == AfterClose(s, books, year, posts)
  {
    var u := With(Opened(s, books, year), posts);
    assert u.years[year := FiscalYear(u.years[year].window, true, Some(|s.entries|))]
        == s.years[year := FiscalYear(YearWindow(s, books, year), true, Some(|s.entries|))];
  }

  lemma {:induction false} CloseKeeps(s: State, books: Books, year: int, target: Target, includeDraws: bool)
    requires Inv(s, books) && Proper(books) && BuildClose(s, books, year, target, includeDraws).Append?
    ensures Record(s, BuildClose(s, books, year, target, includeDraws).events)
         == Some(AfterClose(s, books, year, ClosePosts(s, books, year, target, includeDraws)))
    ensures Inv(AfterClose(s, books, year, ClosePosts(s, books, year, target, includeDraws)), books)
    ensures year in s.years ==> !s.years[year].closed
  {
    hide BuildClose, ClosingPost, AllocationPost, NetResult, PartnerShares, Posting, Posted, ClosePosts, InvBut, Seals,
         YearWindow, Opened, AfterClose;
    CloseShape(s, books, year, target, includeDraws);
    CloseOpens(s, books, year);
    ClosePostsFirst(s, books, year, target, includeDraws);
    var first := OpeningEvents(s, books, year) + [Posting(ClosingPost(s, books, year, target.account, includeDraws))];
    var u := With(Opened(s, books, year), [Posted(ClosingPost(s, books, year, target.account, includeDraws))]);
    var net := NetResult(s, books, year, includeDraws);
    var posts := ClosePosts(s, books, year, target, includeDraws);
    SealedIsAfterClose(s, books, year, posts);
    if target.ToPartners? && net != 0 {
      var allocation := AllocationPost(books, year, YearWindow(s, books, year).end, target.account, net,
                                       PartnerShares(books, year, net).value);
      ClosePostsSecond(s, books, year, target.account, includeDraws, u);
      RecordConcat(s, first, [Posting(allocation)]);
      var w := With(u, [Posted(allocation)]);
      assert w == With(Opened(s, books, year), posts);
      SealKeeps(s, books, year, w, first + [Posting(allocation)]);
    } else {
      SealKeeps(s, books, year, u, first);
    }
  }

  lemma InRange(s: State, lines: seq<Line>)
    requires CheckAccounts(s, AccountsOf(lines)).None?
    ensures forall l :: l in lines ==> l.account < |s.accounts|
  {
    forall l | l in lines ensures l.account < |s.accounts| {
      var i :| 0 <= i < |lines| && lines[i] == l;
      assert AccountsOf(lines)[i] in AccountsOf(lines);
    }
  }

  /** Raising the fence over a closing entry that is in place. */
  lemma SealKeeps(s: State, books: Books, year: int, u: State, before: seq<Event>)
    requires Record(s, before) == Some(u) && Inv(u, books) && year in u.years
    requires |s.entries| < |u.entries| && Seals(u.entries[|s.entries|], year, u.years[year].window.end)
    ensures Record(s, before + [YearClosed(year, |s.entries|)])
         == Some(u.(years := u.years[year := FiscalYear(u.years[year].window, true, Some(|s.entries|))]))
    ensures Inv(u.(years := u.years[year := FiscalYear(u.years[year].window, true, Some(|s.entries|))]), books)
  {
    RecordConcat(s, before, [YearClosed(year, |s.entries|)]);
    RecordOne(u, YearClosed(year, |s.entries|));
    assert YearOk(u, books, year);
    YearsKeep(u, books, {}, year, FiscalYear(u.years[year].window, true, Some(|s.entries|)));
    assert {} - {year} == {};
  }

  lemma {:induction false} AllocateKeeps(s: State, books: Books, year: int)
    requires Inv(s, books) && Proper(books) && BuildAllocate(s, books, year).Append?
    ensures Record(s, BuildAllocate(s, books, year).events).Some?
    ensures Inv(Record(s, BuildAllocate(s, books, year).events).value, books)
  {
    var entry := s.entries[Holder(s.entries, Keyed(CloseKey(year))).value];
    var net := ResultOf(s, entry.lines);
    var account := YearAccounts(s, books, entry.lines)[0];
    var shares := PartnerShares(books, year, net).value;
    SharesAddBack(books, year, net);
    AllocationIsSound(books, year, entry.date, account, net, shares);
    PostCommandKeeps(s, books, AllocationPost(books, year, entry.date, account, net, shares), false);
  }

  /** The batch is recorded whole, and leaves sound books. */
  ghost predicate Kept(s: State, books: Books, events: seq<Event>) {
    Record(s, events).Some? && Inv(Record(s, events).value, books)
  }

  lemma EntryCommandKeeps(s: State, books: Books, cmd: Command)
    requires Inv(s, books) && (cmd.PostEntry? || cmd.VoidEntry? || cmd.UnvoidEntry? || cmd.ReassignLine?)
    requires Build(s, books, cmd).Append?
    ensures Kept(s, books, Build(s, books, cmd).events)
  {
    hide InvBut, Project, Total;
    match cmd
    case PostEntry(post) =>
      CheckedTotalIsTotal(post.lines);
      PostCommandKeeps(s, books, post, true);
    case VoidEntry(entry) => VoidCommandKeeps(s, books, entry); RecordOne(s, EntryVoided(entry));
    case UnvoidEntry(entry) => UnvoidKeeps(s, books, entry); RecordOne(s, EntryUnvoided(entry));
    case ReassignLine(entry, line, to) =>
      ReassignKeeps(s, books, entry, line, to);
      RecordOne(s, LineReassigned(entry, line, to));
  }

  lemma YearCommandKeeps(s: State, books: Books, cmd: Command)
    requires Inv(s, books) && Proper(books) && Lawful(books, cmd)
    requires cmd.OpenYear? || cmd.CloseBooks? || cmd.ReopenBooks? || cmd.AllocateYear?
    requires Build(s, books, cmd).Append?
    ensures Kept(s, books, Build(s, books, cmd).events)
  {
    hide InvBut, Project, Record, BuildClose, BuildReopen, BuildAllocate, AfterClose, Reopened;
    match cmd
    case OpenYear(year, window) => OpenYearKeeps(s, books, year); RecordOne(s, YearOpened(year, window));
    case CloseBooks(year, target, draws) => CloseKeeps(s, books, year, target, draws);
    case ReopenBooks(year) => ReopenKeeps(s, books, year);
    case AllocateYear(year) => AllocateKeeps(s, books, year);
  }

  lemma BillCommandKeeps(s: State, books: Books, cmd: Command)
    requires Inv(s, books) && (cmd.ReceiveBill? || cmd.VoidBill?) && Build(s, books, cmd).Append?
    ensures Kept(s, books, Build(s, books, cmd).events)
  {
    hide InvBut, Record, BuildReceiveBill, BuildVoidBill;
    match cmd
    case ReceiveBill(order) => ReceiveBillKeeps(s, books, order);
    case VoidBill(bill) => VoidBillKeeps(s, books, bill);
  }

  lemma AccountCommandKeeps(s: State, books: Books, cmd: Command)
    requires Inv(s, books) && (cmd.CreateAccount? || cmd.DeactivateAccount? || cmd.ReactivateAccount?)
             && Build(s, books, cmd).Append?
    ensures Record(s, Build(s, books, cmd).events).Some? <==> !IllNamed(cmd)
    ensures !IllNamed(cmd) ==> Kept(s, books, Build(s, books, cmd).events)
  {
    hide InvBut, NumberOk, Blank, LiveBalance;
    var event := Build(s, books, cmd).events[0];
    RecordOne(s, event);
    AccountsKeep(s, books, Project(s, event).value.accounts);
  }

  /** A new account whose number is blank or ill formed, or whose name is blank. */
  predicate IllNamed(cmd: Command) {
    cmd.CreateAccount? && !(NumberOk(cmd.account.number) && !Blank(cmd.account.name))
  }

  /** Every command keeps the invariant. What it built is refused by the store's own rules exactly when it is
      a payment that is not positive or an ill-named account, and by the tables' constraints never. The texts
      of memos, reasons and vendors, which the store refuses when blank, are no part of a command here. */
  lemma {:induction false} CommandsKeepInvariant(s: State, books: Books, cmd: Command)
    requires Inv(s, books) && Proper(books) && Lawful(books, cmd) && Build(s, books, cmd).Append?
    ensures Record(s, Build(s, books, cmd).events).Some? <==> !(cmd.PayBill? && cmd.applied <= 0) && !IllNamed(cmd)
    ensures Record(s, Build(s, books, cmd).events).Some? ==> Inv(Record(s, Build(s, books, cmd).events).value, books)
  {
    hide InvBut, Build, Record, NumberOk, Blank;
    match cmd
    case PostEntry(_) => EntryCommandKeeps(s, books, cmd);
    case VoidEntry(_) => EntryCommandKeeps(s, books, cmd);
    case UnvoidEntry(_) => EntryCommandKeeps(s, books, cmd);
    case ReassignLine(_, _, _) => EntryCommandKeeps(s, books, cmd);
    case OpenYear(_, _) => YearCommandKeeps(s, books, cmd);
    case CloseBooks(_, _, _) => YearCommandKeeps(s, books, cmd);
    case ReopenBooks(_) => YearCommandKeeps(s, books, cmd);
    case AllocateYear(_) => YearCommandKeeps(s, books, cmd);
    case ReceiveBill(_) => BillCommandKeeps(s, books, cmd);
    case PayBill(_, _, _, _, _) => PayBillKeeps(s, books, cmd);
    case VoidBill(_) => BillCommandKeeps(s, books, cmd);
    case CreateAccount(_) => AccountCommandKeeps(s, books, cmd);
    case DeactivateAccount(_) => AccountCommandKeeps(s, books, cmd);
    case ReactivateAccount(_) => AccountCommandKeeps(s, books, cmd);
  }

  /** An account with no number and no name passes the command's check, and the store refuses it. */
  lemma BlankAccountIsRefused(books: Books)
    ensures Build(EMPTY, books, CreateAccount(Account(Asset, "", "", None, true))).Append?
    ensures Record(EMPTY, Build(EMPTY, books, CreateAccount(Account(Asset, "", "", None, true))).events).None?
  {
    RecordOne(EMPTY, AccountCreated(Account(Asset, "", "", None, true)));
  }
}
