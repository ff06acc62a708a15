/** Exactly when each command goes through, said of the books and the command alone. */
module Acceptance {
  import opened Options
  import opened Sums
  import opened Calendar
  import opened Ledger
  import opened Texts
  import opened Commands
  import opened Sweeping
  import opened Invariants
  import opened ClosingTheYear
  import opened Counting

  // ------------------------------------------------------------------ what is asked of the books

  predicate InUse(s: State, a: AccountId) {
    a < |s.accounts| && s.accounts[a].active
  }

  /** No closed year has the day in it. */
  ghost predicate DayIsOpen(s: State, day: Date) {
    forall year | year in s.years && s.years[year].closed ::
      day < s.years[year].window.start || s.years[year].window.end < day
  }

  /** No live entry carries the reference. */
  ghost predicate ReferenceIsFree(s: State, reference: Reference) {
    forall e | e in s.entries && !e.isVoid :: e.reference != Some(reference)
  }

  lemma FenceMeans(s: State, day: Date)
    ensures FencedOn(s, day) <==> !DayIsOpen(s, day)
  {
  }

  lemma FreeMeans(s: State, reference: Reference)
    ensures Holder(s.entries, reference).None? <==> ReferenceIsFree(s, reference)
  {
    var id := Holder(s.entries, reference);
    if id.Some? {
      assert s.entries[id.value] in s.entries;
    } else {
      forall e | e in s.entries && !e.isVoid ensures e.reference != Some(reference) {
        var i :| 0 <= i < |s.entries| && s.entries[i] == e;
      }
    }
  }

  /** A sum does not overflow exactly when no running sum leaves i64. */
  lemma {:induction false} SumsInRange(lines: seq<Line>)
    ensures CheckedTotal(lines).Some? <==> forall n :: 0 <= n <= |lines| ==> InI64(Total(lines[..n]))
  {
    CheckedTotalIsTotal(lines);
    assert lines[..|lines|] == lines;
    if lines == [] {
      assert Total(lines[..0]) == 0;
    } else {
      var m := |lines| - 1;
      SumsInRange(lines[..m]);
      CheckedTotalIsTotal(lines[..m]);
      TotalConcat(lines[..m], [lines[m]]);
      TotalOne(lines[m]);
      assert lines[..m] + [lines[m]] == lines;
      hide Total;
      assert forall n :: 0 <= n <= m ==> lines[..m][..n] == lines[..n];
    }
  }

  lemma PassesChecks(s: State, accounts: seq<AccountId>, day: Date, fenced: bool)
    ensures CheckEntryInvariants(s, accounts, day, fenced).None?
       <==> (forall a :: a in accounts ==> InUse(s, a)) && (fenced ==> DayIsOpen(s, day))
  {
    hide FencedOn, DayIsOpen;
    FenceMeans(s, day);
  }

  lemma AccountsAre(lines: seq<Line>, s: State)
    ensures (forall a :: a in AccountsOf(lines) ==> InUse(s, a)) <==> (forall l :: l in lines ==> InUse(s, l.account))
  {
    hide InUse;
    forall l | l in lines ensures l.account in AccountsOf(lines) {
      var i :| 0 <= i < |lines| && lines[i] == l;
      assert AccountsOf(lines)[i] == l.account;
    }
    forall a | a in AccountsOf(lines) ensures exists l :: l in lines && l.account == a {
      var i :| 0 <= i < |lines| && AccountsOf(lines)[i] == a;
      assert lines[i] in lines;
    }
  }

  // ------------------------------------------------------------------ entries

  /** An entry goes through when it has two lines, sums to zero and never past i64 on the way, is on accounts in use, on
      a day no closed year has, under a reference no live entry carries; and it is posted just as it was handed in. */
  lemma PostAccepted(s: State, books: Books, post: Post)
    ensures Build(s, books, PostEntry(post)).Append?
       <==> && 2 <= |post.lines| && Total(post.lines) == 0
            && (forall n :: 0 <= n <= |post.lines| ==> InI64(Total(post.lines[..n])))
            && (forall l :: l in post.lines ==> InUse(s, l.account))
            && DayIsOpen(s, post.date)
            && (post.reference.Some? ==> ReferenceIsFree(s, Keyed(post.reference.value)))
    ensures Build(s, books, PostEntry(post)).Append? ==>
              Build(s, books, PostEntry(post)).events
              == [EntryPosted(post.date, post.lines,
                              if post.reference.Some? then Some(Keyed(post.reference.value)) else None, post.source)]
  {
    SumsInRange(post.lines);
    CheckedTotalIsTotal(post.lines);
    PassesChecks(s, AccountsOf(post.lines), post.date, true);
    AccountsAre(post.lines, s);
    if post.reference.Some? {
      FreeMeans(s, Keyed(post.reference.value));
    }
    hide CheckedTotal, CheckEntryInvariants, DayIsOpen, ReferenceIsFree, Holder, InUse, AccountsOf, Total;
  }

  /** A void asks for a live entry, and that it be no closing one inside a closed year. */
  lemma VoidAccepted(s: State, books: Books, id: EntryId)
    ensures Build(s, books, VoidEntry(id)).Append?
       <==> && id < |s.entries| && !s.entries[id].isVoid
            && (s.entries[id].source == Some(Closing) ==> DayIsOpen(s, s.entries[id].date))
    ensures Build(s, books, VoidEntry(id)).Append? ==> Build(s, books, VoidEntry(id)).events == [EntryVoided(id)]
  {
    if id < |s.entries| {
      FenceMeans(s, s.entries[id].date);
    }
    hide FencedOn, DayIsOpen;
  }

  /** An unvoid asks for a void entry whose reference no live one has taken since. */
  lemma UnvoidAccepted(s: State, books: Books, id: EntryId)
    ensures Build(s, books, UnvoidEntry(id)).Append?
       <==> && id < |s.entries| && s.entries[id].isVoid
            && (s.entries[id].reference.Some? ==> ReferenceIsFree(s, s.entries[id].reference.value))
    ensures Build(s, books, UnvoidEntry(id)).Append? ==> Build(s, books, UnvoidEntry(id)).events == [EntryUnvoided(id)]
  {
    if id < |s.entries| && s.entries[id].reference.Some? {
      FreeMeans(s, s.entries[id].reference.value);
    }
    hide ReferenceIsFree;
  }

  /** A reassignment asks for a line of a live entry, and another account in use; no closed year stands in its way. */
  lemma ReassignAccepted(s: State, books: Books, id: EntryId, line: nat, to: AccountId)
    ensures Build(s, books, ReassignLine(id, line, to)).Append?
       <==> && id < |s.entries| && !s.entries[id].isVoid && line < |s.entries[id].lines|
            && InUse(s, to) && s.entries[id].lines[line].account != to
    ensures Build(s, books, ReassignLine(id, line, to)).Append? ==>
              Build(s, books, ReassignLine(id, line, to)).events == [LineReassigned(id, line, to)]
  {
  }

  // ------------------------------------------------------------------ bills

  function BillReference(s: State, order: BillOrder): Reference {
    match order.reference
    case Some(key) => Keyed(key)
    case None => Keyed(BillKey(|s.bills|))
  }

  /** A bill asks for a positive amount, accounts in use, an open day and a free reference: its own, or the one made of
      its number. It is received whole: an entry that debits the one account and credits the other, and the bill. */
  lemma ReceiveAccepted(s: State, books: Books, order: BillOrder)
    ensures Build(s, books, ReceiveBill(order)).Append?
       <==> && 0 < order.amount && InUse(s, order.debit) && InUse(s, order.payable)
            && DayIsOpen(s, order.issued) && ReferenceIsFree(s, BillReference(s, order))
    ensures Build(s, books, ReceiveBill(order)).Append? ==>
              Build(s, books, ReceiveBill(order)).events
              == [EntryPosted(order.issued,
                              [Line(order.debit, order.amount, order.currency),
                               Line(order.payable, -order.amount, order.currency)],
                              Some(BillReference(s, order)), Some(BillPayable)),
                  BillReceived(order.amount, |s.entries|)]
  {
    var accounts := [order.debit, order.payable];
    PassesChecks(s, accounts, order.issued, true);
    FreeMeans(s, BillReference(s, order));
    assert forall a :: a in accounts <==> a == order.debit || a == order.payable;
    hide CheckEntryInvariants, DayIsOpen, ReferenceIsFree, Holder, InUse;
  }

  /** In sound books a payment asks for a standing bill that is not paid in full, for no more than is left of it,
      accounts in use and an open day. It need not be positive. */
  lemma PaymentAccepted(s: State, books: Books, bill: BillId, paidOn: Date, applied: Cents, from: AccountId,
                        payable: AccountId)
    requires Inv(s, books)
    ensures Build(s, books, PayBill(bill, paidOn, applied, from, payable)).Append?
       <==> && bill < |s.bills| && s.bills[bill].status != Void && s.bills[bill].paid != s.bills[bill].amount
            && applied <= s.bills[bill].amount - s.bills[bill].paid
            && InUse(s, from) && InUse(s, payable) && DayIsOpen(s, paidOn)
    ensures Build(s, books, PayBill(bill, paidOn, applied, from, payable)).Append? ==>
              Build(s, books, PayBill(bill, paidOn, applied, from, payable)).events
              == [EntryPosted(paidOn, [Line(payable, applied, USD), Line(from, -applied, USD)],
                              Some(PaymentOf(bill, |s.entries|)), Some(BillPayment)),
                  BillPaymentApplied(bill, |s.entries|, applied)]
  {
    if bill < |s.bills| {
      assert BillOk(s.entries, s.bills[bill]);
    }
    var accounts := [payable, from];
    PassesChecks(s, accounts, paidOn, true);
    assert forall a :: a in accounts <==> a == payable || a == from;
    hide CheckEntryInvariants, DayIsOpen, InUse, InvBut;
  }

  /** A bill is voided when it stands, nothing has been paid on it, and its entry is live. */
  lemma VoidBillAccepted(s: State, books: Books, bill: BillId)
    requires Inv(s, books)
    ensures Build(s, books, VoidBill(bill)).Append?
       <==> && bill < |s.bills| && s.bills[bill].status != Void && s.bills[bill].paid == 0
            && !s.entries[s.bills[bill].entry].isVoid
    ensures Build(s, books, VoidBill(bill)).Append? ==>
              Build(s, books, VoidBill(bill)).events == [EntryVoided(s.bills[bill].entry), Ledger.BillVoided(bill)]
  {
    if bill < |s.bills| {
      assert BillOk(s.entries, s.bills[bill]);
    }
    hide InvBut;
  }

  /** A bill's status says what is paid on it. */
  lemma StatusSaysWhatIsPaid(s: State, books: Books, bill: BillId)
    requires Inv(s, books) && bill < |s.bills|
    ensures var b := s.bills[bill];
            && 0 < b.amount && 0 <= b.paid <= b.amount
            && (b.status == Void ==> b.paid == 0)
            && (b.status != Void ==>
                  && (b.status == Paid <==> b.paid == b.amount)
                  && (b.status == Partial <==> 0 < b.paid < b.amount)
                  && (b.status == Open <==> b.paid == 0))
  {
    assert BillOk(s.entries, s.bills[bill]);
  }

  // ------------------------------------------------------------------ accounts and years

  /** A number is given once. */
  lemma CreateAccepted(s: State, books: Books, account: Account)
    ensures Build(s, books, CreateAccount(account)).Append?
         <==> forall a :: a in s.accounts ==> a.number != account.number
    ensures Build(s, books, CreateAccount(account)).Append? ==>
              Build(s, books, CreateAccount(account)).events == [AccountCreated(account.(active := true))]
  {
  }

  /** An account is put out of use when it is in use and holds nothing, and back when it is out of use. */
  lemma UseAccepted(s: State, books: Books, id: AccountId)
    ensures Build(s, books, DeactivateAccount(id)).Append? <==> InUse(s, id) && LiveBalance(s.entries, id) == 0
    ensures Build(s, books, ReactivateAccount(id)).Append? <==> id < |s.accounts| && !InUse(s, id)
  {
    hide LiveBalance;
  }

  /** The books with one account in use, or out of it. */
  function WithUse(s: State, id: AccountId, active: bool): State
    requires id < |s.accounts|
  {
    s.(accounts := s.accounts[id := s.accounts[id].(active := active)])
  }

  /** An account put out of use takes no entry, and putting it back brings back the books. */
  lemma OutOfUse(s: State, books: Books, id: AccountId, post: Post)
    requires Build(s, books, DeactivateAccount(id)).Append?
    ensures InUse(s, id)
    ensures Record(s, Build(s, books, DeactivateAccount(id)).events) == Some(WithUse(s, id, false))
    ensures (exists l :: l in post.lines && l.account == id) ==>
              Build(WithUse(s, id, false), books, PostEntry(post)).Reject?
    ensures Build(WithUse(s, id, false), books, ReactivateAccount(id)).Append?
    ensures Record(WithUse(s, id, false), Build(WithUse(s, id, false), books, ReactivateAccount(id)).events) == Some(s)
  {
    UseAccepted(s, books, id);
    UseAccepted(WithUse(s, id, false), books, id);
    UseRecorded(s, books, id);
    hide Build, LiveBalance, DayIsOpen, ReferenceIsFree, Total, Record;
    PostAccepted(WithUse(s, id, false), books, post);
  }

  lemma UseRecorded(s: State, books: Books, id: AccountId)
    requires InUse(s, id)
    ensures Build(s, books, DeactivateAccount(id)).Append? ==>
              Record(s, Build(s, books, DeactivateAccount(id)).events) == Some(WithUse(s, id, false))
    ensures var t := WithUse(s, id, false);
            Build(t, books, ReactivateAccount(id)).Append? ==>
              Record(t, Build(t, books, ReactivateAccount(id)).events) == Some(s)
  {
    hide LiveBalance;
    RecordOne(s, AccountDeactivated(id));
    RecordOne(WithUse(s, id, false), AccountReactivated(id));
    assert WithUse(WithUse(s, id, false), id, true) == s;
  }

  lemma OpenYearAccepted(s: State, books: Books, year: int, window: Window)
    ensures Build(s, books, OpenYear(year, window)).Append? <==> year !in s.years
    ensures Build(s, books, OpenYear(year, window)).Append? ==>
              Build(s, books, OpenYear(year, window)).events == [YearOpened(year, window)]
  {
  }

  /** A year is reopened when it is closed, or a live entry carries its closing reference. */
  lemma ReopenAccepted(s: State, books: Books, year: int)
    ensures Build(s, books, ReopenBooks(year)).Append?
       <==> (year in s.years && s.years[year].closed) || !ReferenceIsFree(s, Keyed(CloseKey(year)))
  {
    FreeMeans(s, Keyed(CloseKey(year)));
    hide ReferenceIsFree, Holder;
  }

  // ------------------------------------------------------------------ closes

  /** The account holds something at the end of the day. */
  predicate HoldsOn(s: State, a: AccountId, asOf: Date) {
    a < |s.accounts| && Balance(s.entries, a, asOf) != 0
  }

  lemma KindSwept(s: State, kind: AccountType, asOf: Date, only: Option<seq<AccountId>>)
    ensures forall a: AccountId :: HoldsOn(s, a, asOf) && s.accounts[a].kind == kind && (only.Some? ==> a in only.value)
                   <==> exists x :: x in AccountsWithBalances(s, kind, asOf, only) && x.account == a
    ensures forall x :: x in AccountsWithBalances(s, kind, asOf, only) ==> x.active == InUse(s, x.account)
  {
    var swept := AccountsWithBalances(s, kind, asOf, only);
    SweptIsComplete(s, kind, asOf, only, |s.accounts|, 0);
    hide Balance, SweptBelow, ClosingLines, On;
    forall a: AccountId | HoldsOn(s, a, asOf) && s.accounts[a].kind == kind && (only.Some? ==> a in only.value)
      ensures exists x :: x in swept && x.account == a
    {
      assert Sweeps(s, kind, asOf, only, a);
      assert Swept(a, Balance(s.entries, a, asOf), s.accounts[a].active) in swept;
    }
  }

  /** Some income account holds something at the year end, all that do are in use, and none did at the opening. */
  ghost predicate Closable(s: State, window: Window) {
    && (exists a :: IsIncome(s, a) && HoldsOn(s, a, window.end))
    && (forall a :: IsIncome(s, a) && HoldsOn(s, a, window.end) ==> InUse(s, a))
    && (forall a :: IsIncome(s, a) ==> !HoldsOn(s, a, window.start - 1))
  }

  lemma IncomeSwept(s: State, asOf: Date)
    ensures var swept := AccountsWithBalances(s, Revenue, asOf, None) + AccountsWithBalances(s, Expense, asOf, None);
            && (forall a :: IsIncome(s, a) && HoldsOn(s, a, asOf) <==> exists x :: x in swept && x.account == a)
            && (forall x :: x in swept ==> x.active == InUse(s, x.account))
  {
    KindSwept(s, Revenue, asOf, None);
    KindSwept(s, Expense, asOf, None);
    var revenue, expenses := AccountsWithBalances(s, Revenue, asOf, None), AccountsWithBalances(s, Expense, asOf, None);
    hide HoldsOn, InUse, AccountsWithBalances;
    assert forall x :: x in revenue + expenses <==> x in revenue || x in expenses;
    forall a
      ensures IsIncome(s, a) && HoldsOn(s, a, asOf) <==> exists x: Swept :: x in revenue + expenses && x.account == a
    {
      HoldsIsAnAccount(s, a, asOf);
    }
  }

  lemma HoldsIsAnAccount(s: State, a: AccountId, asOf: Date)
    ensures HoldsOn(s, a, asOf) ==> a < |s.accounts|
  {
  }

  lemma CanCloseMeans(s: State, books: Books, window: Window)
    requires Inv(s, books)
    ensures CheckCanClose(s, window, AccountsWithBalances(s, Revenue, window.end, None),
                          AccountsWithBalances(s, Expense, window.end, None)).None?
       <==> Closable(s, window)
  {
    EntriesSumToZero(s, books);
    DebitsEqualCredits(s.entries, window.end);
    IncomeSwept(s, window.end);
    IncomeSwept(s, window.start - 1);
    hide AccountsWithBalances, Debits, Credits, InvBut, InUse, HoldsOn, IsIncome;
    var swept := AccountsWithBalances(s, Revenue, window.end, None)
      + AccountsWithBalances(s, Expense, window.end, None);
    var opening := AccountsWithBalances(s, Revenue, window.start - 1, None)
                   + AccountsWithBalances(s, Expense, window.start - 1, None);
    SweptSays(s, window.end, swept);
    SweptSays(s, window.start - 1, opening);
  }

  lemma SweptSays(s: State, asOf: Date, swept: seq<Swept>)
    requires forall a :: IsIncome(s, a) && HoldsOn(s, a, asOf) <==> exists x :: x in swept && x.account == a
    requires forall x :: x in swept ==> x.active == InUse(s, x.account)
    ensures swept != [] <==> exists a :: IsIncome(s, a) && HoldsOn(s, a, asOf)
    ensures FirstInactive(swept).None? <==> forall a :: IsIncome(s, a) && HoldsOn(s, a, asOf) ==> InUse(s, a)
  {
    hide InUse, HoldsOn, IsIncome;
    if swept != [] {
      assert swept[0] in swept && IsIncome(s, swept[0].account) && HoldsOn(s, swept[0].account, asOf);
    }
    forall x | x in swept ensures IsIncome(s, x.account) && HoldsOn(s, x.account, asOf) {
    }
  }

  /** Every draws account a close is asked to sweep, and that holds something, is in use. */
  ghost predicate DrawsInUse(s: State, books: Books, asOf: Date) {
    forall l :: l in books.links && l.role == Draw && HoldsOn(s, l.account, asOf)
                && s.accounts[l.account].kind == Equity ==>
      InUse(s, l.account)
  }

  /** The draws accounts are those linked as such. */
  lemma {:induction false} DrawAccountsAre(links: seq<Link>)
    ensures forall a :: a in DrawAccounts(links) <==> exists l :: l in links && l.role == Draw && l.account == a
  {
    if links != [] {
      var n := |links| - 1;
      DrawAccountsAre(links[..n]);
      assert links == links[..n] + [links[n]];
    }
  }

  lemma DrawsSwept(s: State, books: Books, asOf: Date)
    ensures var draws := AccountsWithBalances(s, Equity, asOf, Some(DrawAccounts(books.links)));
            DrawsInUse(s, books, asOf) <==> forall x :: x in draws ==> InUse(s, x.account)
  {
    var only := Some(DrawAccounts(books.links));
    KindSwept(s, Equity, asOf, only);
    DrawAccountsAre(books.links);
    hide AccountsWithBalances, InUse, DrawAccounts;
    var draws := AccountsWithBalances(s, Equity, asOf, only);
    if DrawsInUse(s, books, asOf) {
      forall x | x in draws ensures InUse(s, x.account) {
        assert HoldsOn(s, x.account, asOf);
        assert x.account in only.value;
        var l :| l in books.links && l.role == Draw && l.account == x.account;
      }
    }
  }

  lemma LinesOfSwept(s: State, swept: seq<Swept>, currency: Currency)
    ensures (forall l :: l in ClosingLines(swept, currency) ==> InUse(s, l.account))
         <==> (forall x :: x in swept ==> InUse(s, x.account))
  {
    ClosingLinesTotal(swept, currency);
    hide ClosingLines, InUse, Total, SweepTotal;
    var lines := ClosingLines(swept, currency);
    assert forall i :: 0 <= i < |lines| ==> lines[i].account == swept[i].account;
    forall x | x in swept ensures exists l :: l in lines && l.account == x.account {
      var i :| 0 <= i < |swept| && swept[i] == x;
      assert lines[i] in lines;
    }
    forall l | l in lines ensures exists x :: x in swept && l.account == x.account {
      var i :| 0 <= i < |lines| && lines[i] == l;
      assert swept[i] in swept;
    }
  }

  lemma IncomeInUse(s: State, asOf: Date)
    requires forall a :: IsIncome(s, a) && HoldsOn(s, a, asOf) ==> InUse(s, a)
    ensures forall x :: x in AccountsWithBalances(s, Revenue, asOf, None) ==> InUse(s, x.account)
    ensures forall x :: x in AccountsWithBalances(s, Expense, asOf, None) ==> InUse(s, x.account)
  {
    IncomeSwept(s, asOf);
    hide AccountsWithBalances, InUse, HoldsOn, IsIncome;
    var revenue, expenses := AccountsWithBalances(s, Revenue, asOf, None), AccountsWithBalances(s, Expense, asOf, None);
    assert forall x :: x in revenue || x in expenses ==> x in revenue + expenses;
  }

  lemma ClosingUsable(s: State, books: Books, year: int, account: AccountId, includeDraws: bool)
    requires Closable(s, YearWindow(s, books, year))
    ensures (forall l :: l in ClosingPost(s, books, year, account, includeDraws).lines ==> InUse(s, l.account))
       <==> && (NetResult(s, books, year, includeDraws) != 0 ==> InUse(s, account))
            && (includeDraws ==> DrawsInUse(s, books, YearWindow(s, books, year).end))
  {
    var end := YearWindow(s, books, year).end;
    IncomeInUse(s, end);
    DrawsSwept(s, books, end);
    hide AccountsWithBalances, InUse, DrawsInUse, HoldsOn, IsIncome, SweepTotal, ClosingLines, YearWindow, Closable;
    var swept := SweptBy(s, books, year, includeDraws);
    var revenue, expenses := AccountsWithBalances(s, Revenue, end, None), AccountsWithBalances(s, Expense, end, None);
    var draws := if includeDraws then AccountsWithBalances(s, Equity, end, Some(DrawAccounts(books.links))) else [];
    assert forall x :: x in swept <==> x in revenue || x in expenses || x in draws;
    LinesOfSwept(s, swept, books.currency);
    var lines, total := ClosingLines(swept, books.currency), SweepTotal(swept);
    var last := if total != 0 then [Line(account, total, books.currency)] else [];
    assert ClosingPost(s, books, year, account, includeDraws).lines == lines + last;
    assert forall l :: l in lines + last <==> l in lines || l in last;
    assert total != 0 ==> last[0] in last;
  }

  /** Any post a command makes of its own, but for an entry handed in: accounts in use, the day open, the reference
      free. */
  lemma MadePostAccepted(s: State, post: Post, fenced: bool)
    requires post.reference.Some?
    ensures BuildPost(s, post, fenced).Append?
       <==> && ReferenceIsFree(s, Keyed(post.reference.value)) && (forall l :: l in post.lines ==> InUse(s, l.account))
            && (fenced ==> DayIsOpen(s, post.date))
  {
    PassesChecks(s, AccountsOf(post.lines), post.date, fenced);
    AccountsAre(post.lines, s);
    FreeMeans(s, Keyed(post.reference.value));
    hide CheckEntryInvariants, DayIsOpen, ReferenceIsFree, Holder, InUse, AccountsOf;
  }

  /** What a close asks for, whoever it goes to. */
  ghost predicate CloseAllowed(s: State, books: Books, year: int, account: AccountId, includeDraws: bool) {
    var window := YearWindow(s, books, year);
    && account < |s.accounts| && s.accounts[account].kind == Equity
    && ReferenceIsFree(s, Keyed(CloseKey(year))) && DayIsOpen(s, window.end)
    && Closable(s, window)
    && (NetResult(s, books, year, includeDraws) != 0 ==> InUse(s, account))
    && (includeDraws ==> DrawsInUse(s, books, window.end))
  }

  lemma ClosingPostPasses(s: State, books: Books, year: int, account: AccountId, includeDraws: bool)
    requires Closable(s, YearWindow(s, books, year))
    ensures BuildPost(s, ClosingPost(s, books, year, account, includeDraws), true).Append?
       <==> && ReferenceIsFree(s, Keyed(CloseKey(year))) && DayIsOpen(s, YearWindow(s, books, year).end)
            && (NetResult(s, books, year, includeDraws) != 0 ==> InUse(s, account))
            && (includeDraws ==> DrawsInUse(s, books, YearWindow(s, books, year).end))
  {
    ClosingUsable(s, books, year, account, includeDraws);
    MadePostAccepted(s, ClosingPost(s, books, year, account, includeDraws), true);
    hide SweptBy, ClosingLines, YearWindow, NetResult, Closable, InUse, BuildPost, DayIsOpen, ReferenceIsFree,
         DrawsInUse;
  }

  /** A close to an account goes through when it is an equity account, no live entry carries the closing reference,
      and the year end is in no closed year; when some income account holds something at the year end, all that do
      are in use, and none did at the opening; and when the account is in use, if there is a result, and so are the
      draws, if asked for. */
  lemma CloseAccepted(s: State, books: Books, year: int, account: AccountId, includeDraws: bool)
    requires Inv(s, books)
    ensures Build(s, books, CloseBooks(year, ToAccount(account), includeDraws)).Append?
       <==> CloseAllowed(s, books, year, account, includeDraws)
  {
    CanCloseMeans(s, books, YearWindow(s, books, year));
    FreeMeans(s, Keyed(CloseKey(year)));
    if Closable(s, YearWindow(s, books, year)) {
      ClosingPostPasses(s, books, year, account, includeDraws);
    }
    hide CheckCanClose, AccountsWithBalances, ClosingPost, NetResult, PartnerShares, YearWindow, Holder, BuildPost,
         Closable,
         InUse, DayIsOpen, ReferenceIsFree, DrawsInUse, InvBut;
  }

  /** A close to the partners asks for the same, for shares that are accepted, and where there is a result for a free
      allocation reference and an account in use for every share that is not zero. */
  lemma CloseToPartnersAccepted(s: State, books: Books, year: int, account: AccountId, includeDraws: bool)
    requires Inv(s, books) && Proper(books)
    ensures Build(s, books, CloseBooks(year, ToPartners(account), includeDraws)).Append?
       <==> && CloseAllowed(s, books, year, account, includeDraws)
            && Divisible(s, books, year, NetResult(s, books, year, includeDraws))
  {
    var net := NetResult(s, books, year, includeDraws);
    var shares := PartnerShares(books, year, net);
    hide *;
    PartnersRoute(s, books, year, account, includeDraws);
    CloseAccepted(s, books, year, account, includeDraws);
    DivisibleMeans(s, books, year, net);
    if shares.Done? {
      AllocationPasses(s, books, year, YearWindow(s, books, year).end, account, net, shares.value, true);
    }
    if CloseAllowed(s, books, year, account, includeDraws) {
      AllowedMeans(s, books, year, account, includeDraws);
    }
  }

  lemma AllowedMeans(s: State, books: Books, year: int, account: AccountId, includeDraws: bool)
    requires CloseAllowed(s, books, year, account, includeDraws)
    ensures DayIsOpen(s, YearWindow(s, books, year).end)
    ensures NetResult(s, books, year, includeDraws) != 0 ==> InUse(s, account)
  {
    hide DayIsOpen, YearWindow, NetResult, InUse, Closable, ReferenceIsFree, DrawsInUse;
  }

  lemma DivisibleMeans(s: State, books: Books, year: int, net: Cents)
    ensures var shares := PartnerShares(books, year, net);
            Divisible(s, books, year, net)
            <==> (shares.Done?
                  && (net != 0 ==> ReferenceIsFree(s, Keyed(AllocationKey(year))) && SharesInUse(s, shares.value)))
  {
    hide PartnerShares, ReferenceIsFree, SharesInUse;
  }

  lemma PartnersRoute(s: State, books: Books, year: int, account: AccountId, includeDraws: bool)
    ensures var net := NetResult(s, books, year, includeDraws);
            var shares := PartnerShares(books, year, net);
            Build(s, books, CloseBooks(year, ToPartners(account), includeDraws)).Append?
            <==> (Build(s, books, CloseBooks(year, ToAccount(account), includeDraws)).Append? && shares.Done?
                  && (net != 0 ==>
                        BuildPost(s, AllocationPost(books, year, YearWindow(s, books, year).end, account, net,
                                                    shares.value),
                                  true).Append?))
  {
    hide CheckCanClose, AccountsWithBalances, ClosingPost, AllocationPost, NetResult, PartnerShares, YearWindow, Holder,
         BuildPost;
  }

  ghost predicate Divisible(s: State, books: Books, year: int, net: Cents) {
    var shares := PartnerShares(books, year, net);
    shares.Done? && (net != 0 ==> ReferenceIsFree(s, Keyed(AllocationKey(year))) && SharesInUse(s, shares.value))
  }

  predicate SharesInUse(s: State, shares: seq<Share>) {
    forall x | x in shares && x.cents != 0 :: InUse(s, x.account)
  }

  lemma {:induction false} LinesOfShares(s: State, shares: seq<Share>, currency: Currency)
    ensures (forall l :: l in ShareLines(shares, currency) ==> InUse(s, l.account)) <==> SharesInUse(s, shares)
  {
    hide InUse;
    if shares != [] {
      var n := |shares| - 1;
      LinesOfShares(s, shares[..n], currency);
      assert shares == shares[..n] + [shares[n]];
      var before, line := ShareLines(shares[..n], currency), Line(shares[n].account, -shares[n].cents, currency);
      assert forall l :: l in before + [line] <==> l in before || l == line;
    }
  }

  lemma AllocationPasses(s: State, books: Books, year: int, date: Date, account: AccountId, net: Cents,
                         shares: seq<Share>,
                         fenced: bool)
    ensures BuildPost(s, AllocationPost(books, year, date, account, net, shares), fenced).Append?
       <==> && ReferenceIsFree(s, Keyed(AllocationKey(year))) && (fenced ==> DayIsOpen(s, date))
            && InUse(s, account) && SharesInUse(s, shares)
  {
    var first, rest := Line(account, net, books.currency), ShareLines(shares, books.currency);
    LinesOfShares(s, shares, books.currency);
    MadePostAccepted(s, AllocationPost(books, year, date, account, net, shares), fenced);
    hide ShareLines, InUse, SharesInUse, ReferenceIsFree, DayIsOpen, BuildPost;
    assert forall l :: l in [first] + rest <==> l == first || l in rest;
  }

  /** Dividing a closed year's result asks for a live closing entry and a free allocation reference; for one equity
      account among that entry's that is no partner's, and a result on its income accounts; and for shares that are
      accepted, all on accounts in use. No closed year stands in its way. */
  lemma AllocateAccepted(s: State, books: Books, year: int)
    ensures Build(s, books, AllocateYear(year)).Append?
       <==> exists i :: 0 <= i < |s.entries| && Holder(s.entries, Keyed(CloseKey(year))) == Some(i)
                        && ReferenceIsFree(s, Keyed(AllocationKey(year)))
                        && AllocatesFrom(s, books, year, s.entries[i].lines)
  {
    var closing := Holder(s.entries, Keyed(CloseKey(year)));
    FreeMeans(s, Keyed(AllocationKey(year)));
    hide ReferenceIsFree, Holder, YearAccounts, ResultOf, PartnerShares, InUse;
    if closing.Some? {
      var entry := s.entries[closing.value];
      var candidates, net := YearAccounts(s, books, entry.lines), ResultOf(s, entry.lines);
      var shares := PartnerShares(books, year, net);
      if |candidates| == 1 && shares.Done? {
        AllocationPasses(s, books, year, entry.date, candidates[0], net, shares.value, false);
      }
      hide BuildPost, AllocationPost, SharesInUse;
    }
  }

  predicate AllocatesFrom(s: State, books: Books, year: int, lines: seq<Line>) {
    var candidates, net := YearAccounts(s, books, lines), ResultOf(s, lines);
    var shares := PartnerShares(books, year, net);
    |candidates| == 1 && net != 0 && shares.Done? && InUse(s, candidates[0]) && SharesInUse(s, shares.value)
  }

  /** The equity accounts of an entry that are linked to no partner, each once. */
  lemma {:induction false} YearAccountsAre(s: State, books: Books, lines: seq<Line>)
    ensures forall a: AccountId :: a in YearAccounts(s, books, lines)
                   <==> a < |s.accounts| && s.accounts[a].kind == Equity
                        && (exists l :: l in lines && l.account == a)
                            && (forall l :: l in books.links ==> l.account != a)
    ensures Distinct(YearAccounts(s, books, lines))
  {
    if lines != [] {
      var n := |lines| - 1;
      YearAccountsAre(s, books, lines[..n]);
      assert lines == lines[..n] + [lines[n]];
      assert forall a :: IsLinked(books, a) <==> exists l :: l in books.links && l.account == a;
    }
  }
}
