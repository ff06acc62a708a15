/** What each command decides under the write lock: the events to append, or why not. */
module Commands {
  import opened Options
  import opened Sums
  import opened Calendar
  import opened Ledger
  import opened Texts

  // ------------------------------------------------------------------ commands and refusals

  datatype Post = Post(date: Date, lines: seq<Line>, reference: Option<Key>, source: Option<Source>)

  datatype BillOrder = BillOrder(amount: Cents, issued: Date, debit: AccountId, payable: AccountId,
                                 currency: Currency, reference: Option<Key>)

  /** Where a year's result goes; both pass it through the account named. */
  datatype Target = ToAccount(account: AccountId) | ToPartners(account: AccountId)

  datatype Command =
    | PostEntry(post: Post)
    | VoidEntry(entry: EntryId)
    | UnvoidEntry(entry: EntryId)
    | ReassignLine(entry: EntryId, line: nat, to: AccountId)
    | OpenYear(year: int, window: Window)
    | CloseBooks(year: int, target: Target, includeDraws: bool)
    | ReopenBooks(year: int)
    | AllocateYear(year: int)
    | ReceiveBill(order: BillOrder)
    | PayBill(bill: BillId, paidOn: Date, applied: Cents, from: AccountId, payable: AccountId)
    | VoidBill(bill: BillId)
    | CreateAccount(account: Account)
    | DeactivateAccount(id: AccountId)
    | ReactivateAccount(id: AccountId)

  datatype Error =
    | InsufficientLines | SumOverflows | NotBalanced(sum: Cents)
    | AccountNotFound(account: AccountId) | AccountInactive(account: AccountId)
    | PeriodClosed(date: Date) | DuplicateReference(holder: EntryId) | ReferenceReclaimed(holder: EntryId)
    | EntryNotFound | AlreadyVoided | NotVoided | LineNotFound | SameAccount | ClosingEntryFenced
    | YearAlreadyOpen
    | EquityAccountMissing | EquityAccountWrongType | AlreadyClosed(entry: EntryId)
    | NothingToClose | InactiveAccountHoldsBalance(account: AccountId) | Unbalanced(debits: Cents, credits: Cents)
    | PriorActivityNotClosed(account: AccountId)
    | NotAPartnership | NoPartnersInYear | PartnerHasNoCapitalAccount | PartnerCapitalIsAmbiguous | SharesDoNotTotal
    | NotClosed | AlreadyAllocated(entry: EntryId) | NoYearAccount | NothingToAllocate
    | AmountNotPositive | BillNotFound | BillVoid | BillPaid | OverPayment(remaining: Cents) | HasPayments
    | NumberTaken | AlreadyInactive | AlreadyActive | HasBalance

  /** A check's decision. */
  datatype Verdict = Append(events: seq<Event>) | Reject(error: Error)

  datatype Outcome<+T> = Done(value: T) | Refused(error: Error)

  /** A partner's account, and whether it holds contributions or draws. */
  datatype Role = Contribution | Draw

  datatype Link = Link(partner: nat, account: AccountId, role: Role)

  /** The company's settings and partner register. `split` is the share each partner of the year
      gets of a result; how it is worked out is not part of this model. */
  datatype Books = Books(
    startMonth: int,
    currency: Currency,
    soleProprietor: bool,
    partners: int -> seq<nat>,
    links: seq<Link>,
    split: (int, Cents) -> seq<Cents>)

  /** One month starts every fiscal year, and the splitter answers for each partner of the year. */
  ghost predicate Proper(books: Books) {
    1 <= books.startMonth <= 12
    && forall year, net :: |books.split(year, net)| == |books.partners(year)|
  }

  // ------------------------------------------------------------------ entries

  /** The running sum of the line amounts, None once it leaves i64. */
  function CheckedTotal(lines: seq<Line>): Option<Cents> {
    if lines == [] then Some(0)
    else
      var sum := CheckedTotal(lines[..|lines| - 1]);
      if sum.Some? && InI64(sum.value + lines[|lines| - 1].amount) then Some(sum.value + lines[|lines| - 1].amount)
      else None
  }

  /** A sum that does not overflow is the sum. */
  lemma {:induction false} CheckedTotalIsTotal(lines: seq<Line>)
    ensures CheckedTotal(lines).Some? ==> CheckedTotal(lines).value == Total(lines)
  {
    if lines != [] {
      CheckedTotalIsTotal(lines[..|lines| - 1]);
    }
  }

  function CheckEntryPure(post: Post): Option<Error> {
    if |post.lines| < 2 then Some(InsufficientLines)
    else
      var sum := CheckedTotal(post.lines);
      if sum.None? then Some(SumOverflows)
      else if sum.value != 0 then Some(NotBalanced(sum.value))
      else None
  }

  /** Every account exists and is active. */
  predicate Usable(s: State, accounts: seq<AccountId>) {
    forall a :: a in accounts ==> a < |s.accounts| && s.accounts[a].active
  }

  function CheckAccounts(s: State, accounts: seq<AccountId>): (e: Option<Error>)
    ensures e.None? <==> Usable(s, accounts)
    ensures e.Some? ==> e.value.AccountNotFound? || e.value.AccountInactive?
  {
    if accounts == [] then None
    else
      assert accounts[0] in accounts && forall a :: a in accounts <==> a == accounts[0] || a in accounts[1..];
      if |s.accounts| <= accounts[0] then Some(AccountNotFound(accounts[0]))
      else if !s.accounts[accounts[0]].active then Some(AccountInactive(accounts[0]))
      else CheckAccounts(s, accounts[1..])
  }

  function CheckEntryInvariants(s: State, accounts: seq<AccountId>, date: Date, fenced: bool): Option<Error> {
    var e := CheckAccounts(s, accounts);
    if e.Some? then e
    else if fenced && FencedOn(s, date) then Some(PeriodClosed(date))
    else None
  }

  function AccountsOf(lines: seq<Line>): (accounts: seq<AccountId>)
    ensures |accounts| == |lines|
    ensures forall i :: 0 <= i < |lines| ==> accounts[i] == lines[i].account
  {
    seq(|lines|, i requires 0 <= i < |lines| => lines[i].account)
  }

  function BuildPost(s: State, post: Post, fenced: bool): Verdict {
    var holder := if post.reference.Some? then Holder(s.entries, Keyed(post.reference.value)) else None;
    if holder.Some? then Reject(DuplicateReference(holder.value))
    else
      var e := CheckEntryInvariants(s, AccountsOf(post.lines), post.date, fenced);
      if e.Some? then Reject(e.value)
      else Append([Posting(post)])
  }

  function Posting(post: Post): Event {
    EntryPosted(post.date, post.lines, if post.reference.Some? then Some(Keyed(post.reference.value))
                else None, post.source)
  }

  function CheckNotVoided(s: State, entry: EntryId): Option<Error> {
    if |s.entries| <= entry then Some(EntryNotFound)
    else if s.entries[entry].isVoid then Some(AlreadyVoided)
    else None
  }

  function BuildVoid(s: State, entry: EntryId): Verdict {
    var e := CheckNotVoided(s, entry);
    if e.Some? then Reject(e.value)
    else if s.entries[entry].source == Some(Closing)
         && FencedOn(s, s.entries[entry].date) then Reject(ClosingEntryFenced)
    else Append([EntryVoided(entry)])
  }

  function BuildUnvoid(s: State, entry: EntryId): Verdict {
    if |s.entries| <= entry then Reject(EntryNotFound)
    else if !s.entries[entry].isVoid then Reject(NotVoided)
    else
      var reference := s.entries[entry].reference;
      var holder := if reference.Some? then Holder(s.entries, reference.value) else None;
      if holder.Some? && holder.value != entry then Reject(ReferenceReclaimed(holder.value))
      else Append([EntryUnvoided(entry)])
  }

  function BuildReassign(s: State, entry: EntryId, line: nat, to: AccountId): Verdict {
    var e := CheckNotVoided(s, entry);
    if e.Some? then Reject(e.value)
    else if |s.entries[entry].lines| <= line then Reject(LineNotFound)
    else if |s.accounts| <= to then Reject(AccountNotFound(to))
    else if !s.accounts[to].active then Reject(AccountInactive(to))
    else if s.entries[entry].lines[line].account == to then Reject(SameAccount)
    else Append([LineReassigned(entry, line, to)])
  }

  // ------------------------------------------------------------------ bills

  function BuildReceiveBill(s: State, order: BillOrder): Verdict {
    if order.amount <= 0 then Reject(AmountNotPositive)
    else
      var reference := Keyed(if order.reference.Some? then order.reference.value else BillKey(|s.bills|));
      var holder := Holder(s.entries, reference);
      if holder.Some? then Reject(DuplicateReference(holder.value))
      else
        var e := CheckEntryInvariants(s, [order.debit, order.payable], order.issued, true);
        if e.Some? then Reject(e.value)
        else Append([
          EntryPosted(order.issued, BillLines(order), Some(reference), Some(BillPayable)),
          BillReceived(order.amount, |s.entries|)])
  }

  function BillLines(order: BillOrder): seq<Line> {
    [Line(order.debit, order.amount, order.currency), Line(order.payable, -order.amount, order.currency)]
  }

  function BuildPayBill(s: State, bill: BillId, paidOn: Date, applied: Cents, from: AccountId,
                        payable: AccountId): Verdict {
    if |s.bills| <= bill then Reject(BillNotFound)
    else
      var b := s.bills[bill];
      if b.status == Void then Reject(BillVoid)
      else if b.status == Paid then Reject(BillPaid)
      else if b.amount - b.paid < applied then Reject(OverPayment(b.amount - b.paid))
      else
        var e := CheckEntryInvariants(s, [payable, from], paidOn, true);
        if e.Some? then Reject(e.value)
        else Append([
          EntryPosted(paidOn, PaymentLines(applied, from, payable), Some(PaymentOf(bill, |s.entries|)),
                      Some(BillPayment)),
          BillPaymentApplied(bill, |s.entries|, applied)])
  }

  function PaymentLines(applied: Cents, from: AccountId, payable: AccountId): seq<Line> {
    [Line(payable, applied, USD), Line(from, -applied, USD)]
  }

  function BuildVoidBill(s: State, bill: BillId): Verdict {
    if |s.bills| <= bill then Reject(BillNotFound)
    else
      var b := s.bills[bill];
      if b.status == Void then Reject(BillVoid)
      else if 0 < b.paid then Reject(HasPayments)
      else
        var e := CheckNotVoided(s, b.entry);
        if e.Some? then Reject(e.value)
        else Append([EntryVoided(b.entry), Ledger.BillVoided(bill)])
  }

  // ------------------------------------------------------------------ closing

  /** An account the close will sweep, with the balance it holds. */
  datatype Swept = Swept(account: AccountId, balance: Cents, active: bool)

  predicate Sweeps(s: State, kind: AccountType, asOf: Date, only: Option<seq<AccountId>>, account: AccountId)
    requires account < |s.accounts|
  {
    && s.accounts[account].kind == kind
    && (only.Some? ==> account in only.value)
    && Balance(s.entries, account, asOf) != 0
  }

  /** `accounts_with_balances`, active or not, over the first `n` accounts of the chart. */
  function SweptBelow(s: State, kind: AccountType, asOf: Date, only: Option<seq<AccountId>>, n: nat): seq<Swept>
    requires n <= |s.accounts|
  {
    if n == 0 then []
    else
      var before := SweptBelow(s, kind, asOf, only, n - 1);
      if Sweeps(s, kind, asOf, only, n - 1)
      then before + [Swept(n - 1, Balance(s.entries, n - 1, asOf), s.accounts[n - 1].active)]
      else before
  }

  function AccountsWithBalances(s: State, kind: AccountType, asOf: Date, only: Option<seq<AccountId>>): seq<Swept> {
    SweptBelow(s, kind, asOf, only, |s.accounts|)
  }

  function FirstInactive(swept: seq<Swept>): (found: Option<Swept>)
    ensures found.None? <==> forall a :: a in swept ==> a.active
  {
    if swept == [] then None else if !swept[0].active then Some(swept[0]) else FirstInactive(swept[1..])
  }

  /** `check_can_close`, with the opening-balance guard. */
  function CheckCanClose(s: State, window: Window, revenue: seq<Swept>, expenses: seq<Swept>): Option<Error> {
    var inactive := FirstInactive(revenue + expenses);
    var opening := AccountsWithBalances(s, Revenue, window.start - 1, None)
      + AccountsWithBalances(s, Expense, window.start - 1, None);
    if revenue == [] && expenses == [] then Some(NothingToClose)
    else if inactive.Some? then Some(InactiveAccountHoldsBalance(inactive.value.account))
    else if Debits(s.entries, window.end) != Credits(s.entries, window.end)
    then Some(Unbalanced(Debits(s.entries, window.end), Credits(s.entries, window.end)))
    else if opening != [] then Some(PriorActivityNotClosed(opening[0].account))
    else None
  }

  function SweepTotal(swept: seq<Swept>): Cents {
    Sum(swept, (a: Swept) => a.balance)
  }

  /** A line per swept account that takes it to zero. */
  function ClosingLines(swept: seq<Swept>, currency: Currency): (lines: seq<Line>)
    ensures |lines| == |swept|
  {
    if swept == [] then []
    else ClosingLines(swept[..|swept| - 1], currency)
         + [Line(swept[|swept| - 1].account, -swept[|swept| - 1].balance, currency)]
  }

  datatype Share = Share(account: AccountId, cents: Cents)

  function CapitalAccounts(books: Books, partner: nat): seq<AccountId> {
    LinkedAccounts(books.links, partner)
  }

  function LinkedAccounts(links: seq<Link>, partner: nat): seq<AccountId> {
    if links == [] then []
    else
      var before := LinkedAccounts(links[..|links| - 1], partner);
      var last := links[|links| - 1];
      if last.partner == partner && last.role == Contribution then before + [last.account] else before
  }

  function CapitalTargets(books: Books, partners: seq<nat>): Outcome<seq<AccountId>> {
    if partners == [] then Done([])
    else
      var before := CapitalTargets(books, partners[..|partners| - 1]);
      var mine := CapitalAccounts(books, partners[|partners| - 1]);
      if before.Refused? then before
      else if mine == [] then Refused(PartnerHasNoCapitalAccount)
      else if 1 < |mine| then Refused(PartnerCapitalIsAmbiguous)
      else Done(before.value + mine)
  }

  /** `partner_capital_lines`: the split, refused unless it adds back to the result exactly. */
  function PartnerShares(books: Books, year: int, net: Cents): Outcome<seq<Share>> {
    var partners := books.partners(year);
    if books.soleProprietor then Refused(NotAPartnership)
    else if partners == [] then Refused(NoPartnersInYear)
    else
      var targets := CapitalTargets(books, partners);
      var cents := books.split(year, net);
      if targets.Refused? then Refused(targets.error)
      else if Sum(cents, (c: Cents) => c) != net then Refused(SharesDoNotTotal)
      else Done(seq(|targets.value|, i requires 0 <= i < |targets.value| =>
                  Share(targets.value[i], if i < |cents| then cents[i] else 0)))
  }

  function ShareLines(shares: seq<Share>, currency: Currency): seq<Line> {
    if shares == [] then []
    else
      var before := ShareLines(shares[..|shares| - 1], currency);
      var last := shares[|shares| - 1];
      if last.cents != 0 then before + [Line(last.account, -last.cents, currency)] else before
  }

  /** `allocation_post`: the result out of the year account, a share to each partner. */
  function AllocationPost(books: Books, year: int, date: Date, yearAccount: AccountId, net: Cents,
                          shares: seq<Share>): Post {
    Post(date, [Line(yearAccount, net, books.currency)] + ShareLines(shares, books.currency),
         Some(AllocationKey(year)), Some(Closing))
  }

  function DrawAccounts(links: seq<Link>): seq<AccountId> {
    if links == [] then []
    else
      var before := DrawAccounts(links[..|links| - 1]);
      if links[|links| - 1].role == Draw then before + [links[|links| - 1].account] else before
  }

  function YearWindow(s: State, books: Books, year: int): Window {
    if year in s.years then s.years[year].window else FiscalWindow(books.startMonth, year)
  }

  /** Revenue, then expenses, then the draws when they are asked for. */
  function SweptBy(s: State, books: Books, year: int, includeDraws: bool): seq<Swept> {
    var asOf := YearWindow(s, books, year).end;
    AccountsWithBalances(s, Revenue, asOf, None)
    + AccountsWithBalances(s, Expense, asOf, None)
    + (if includeDraws then AccountsWithBalances(s, Equity, asOf, Some(DrawAccounts(books.links))) else [])
  }

  /** Every swept account to zero, and the sum of what they held to the year account. */
  function ClosingPost(s: State, books: Books, year: int, yearAccount: AccountId, includeDraws: bool): Post {
    var swept := SweptBy(s, books, year, includeDraws);
    var total := SweepTotal(swept);
    Post(YearWindow(s, books, year).end,
         ClosingLines(swept, books.currency) + (if total != 0 then [Line(yearAccount, total, books.currency)] else []),
         Some(CloseKey(year)), Some(Closing))
  }

  function NetResult(s: State, books: Books, year: int, includeDraws: bool): Cents {
    -SweepTotal(SweptBy(s, books, year, includeDraws))
  }

  /** `build_close_books_in_txn`. */
  function BuildClose(s: State, books: Books, year: int, target: Target, includeDraws: bool): Verdict {
    var window := YearWindow(s, books, year);
    var holder := Holder(s.entries, Keyed(CloseKey(year)));
    if |s.accounts| <= target.account then Reject(EquityAccountMissing)
    else if s.accounts[target.account].kind != Equity then Reject(EquityAccountWrongType)
    else if holder.Some? then Reject(AlreadyClosed(holder.value))
    else
      var refusal := CheckCanClose(s, window, AccountsWithBalances(s, Revenue, window.end, None),
                                   AccountsWithBalances(s, Expense, window.end, None));
      if refusal.Some? then Reject(refusal.value)
      else
        var net := NetResult(s, books, year, includeDraws);
        var shares := if target.ToPartners? then PartnerShares(books, year, net) else Done([]);
        if shares.Refused? then Reject(shares.error)
        else
          var opening := if year in s.years then [] else [YearOpened(year, window)];
          var closing := BuildPost(s, ClosingPost(s, books, year, target.account, includeDraws), true);
          if closing.Reject? then closing
          else if target.ToPartners? && net != 0 then
            var allocation := BuildPost(s,
                                        AllocationPost(books, year, window.end, target.account, net,
                                                       shares.value), true);
            if allocation.Reject? then allocation
            else Append(opening + closing.events + allocation.events + [YearClosed(year, |s.entries|)])
          else Append(opening + closing.events + [YearClosed(year, |s.entries|)])
  }

  /** `build_reopen_books_in_txn`: the allocation goes first, then the closing entry, then the fence. */
  function BuildReopen(s: State, year: int): Verdict {
    var closed := year in s.years && s.years[year].closed;
    var entry := Holder(s.entries, Keyed(CloseKey(year)));
    var allocation := Holder(s.entries, Keyed(AllocationKey(year)));
    if !closed && entry.None? then Reject(NotClosed)
    else Append((if allocation.Some? then [EntryVoided(allocation.value)] else [])
                + (if entry.Some? then [EntryVoided(entry.value)] else [])
                + [YearReopened(year)])
  }

  /** `result_of`: the closing entry's lines on revenue and expense accounts. */
  function ResultOf(s: State, lines: seq<Line>): Cents {
    Sum(lines, (l: Line) => if l.account < |s.accounts| && Income(s.accounts[l.account].kind) then l.amount else 0)
  }

  predicate IsLinked(books: Books, account: AccountId) {
    exists l | l in books.links :: l.account == account
  }

  /** The distinct equity accounts of an entry that belong to no partner. */
  function YearAccounts(s: State, books: Books, lines: seq<Line>): seq<AccountId> {
    if lines == [] then []
    else
      var before := YearAccounts(s, books, lines[..|lines| - 1]);
      var a := lines[|lines| - 1].account;
      if a < |s.accounts| && s.accounts[a].kind == Equity && !IsLinked(books, a) && a !in before
      then before + [a] else before
  }

  /** `allocation_plan` and `build_allocate_in_txn`: everything is read off the posted closing entry. */
  function BuildAllocate(s: State, books: Books, year: int): Verdict {
    var closing := Holder(s.entries, Keyed(CloseKey(year)));
    var allocation := Holder(s.entries, Keyed(AllocationKey(year)));
    if closing.None? then Reject(NotClosed)
    else if allocation.Some? then Reject(AlreadyAllocated(allocation.value))
    else
      var entry := s.entries[closing.value];
      var candidates := YearAccounts(s, books, entry.lines);
      var net := ResultOf(s, entry.lines);
      if |candidates| != 1 then Reject(NoYearAccount)
      else if net == 0 then Reject(NothingToAllocate)
      else
        var shares := PartnerShares(books, year, net);
        if shares.Refused? then Reject(shares.error)
        else BuildPost(s, AllocationPost(books, year, entry.date, candidates[0], net, shares.value), false)
  }

  // ------------------------------------------------------------------ accounts and years

  function BuildCreateAccount(s: State, account: Account): Verdict {
    if exists a | a in s.accounts :: a.number == account.number then Reject(NumberTaken)
    else Append([AccountCreated(account.(active := true))])
  }

  function BuildDeactivate(s: State, id: AccountId): Verdict {
    if |s.accounts| <= id then Reject(AccountNotFound(id))
    else if !s.accounts[id].active then Reject(AlreadyInactive)
    else if LiveBalance(s.entries, id) != 0 then Reject(HasBalance)
    else Append([AccountDeactivated(id)])
  }

  function BuildReactivate(s: State, id: AccountId): Verdict {
    if |s.accounts| <= id then Reject(AccountNotFound(id))
    else if s.accounts[id].active then Reject(AlreadyActive)
    else Append([AccountReactivated(id)])
  }

  function BuildOpenYear(s: State, year: int, window: Window): Verdict {
    if year in s.years then Reject(YearAlreadyOpen) else Append([YearOpened(year, window)])
  }

  /** The check a command runs against the write-locked state. */
  function Build(s: State, books: Books, cmd: Command): Verdict {
    match cmd
    case PostEntry(post) =>
      var e := CheckEntryPure(post);
      if e.Some? then Reject(e.value) else BuildPost(s, post, true)
    case VoidEntry(entry) => BuildVoid(s, entry)
    case UnvoidEntry(entry) => BuildUnvoid(s, entry)
    case ReassignLine(entry, line, to) => BuildReassign(s, entry, line, to)
    case OpenYear(year, window) => BuildOpenYear(s, year, window)
    case CloseBooks(year, target, includeDraws) => BuildClose(s, books, year, target, includeDraws)
    case ReopenBooks(year) => BuildReopen(s, year)
    case AllocateYear(year) => BuildAllocate(s, books, year)
    case ReceiveBill(order) => BuildReceiveBill(s, order)
    case PayBill(bill, paidOn, applied, from, payable) => BuildPayBill(s, bill, paidOn, applied, from, payable)
    case VoidBill(bill) => BuildVoidBill(s, bill)
    case CreateAccount(account) => BuildCreateAccount(s, account)
    case DeactivateAccount(id) => BuildDeactivate(s, id)
    case ReactivateAccount(id) => BuildReactivate(s, id)
  }
}
