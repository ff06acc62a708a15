/** What each refusal says of the books: the reason it gives is always a true one. */
module Refusals {
  import opened Options
  import opened Sums
  import opened Calendar
  import opened Ledger
  import opened Texts
  import opened Commands
  import opened Sweeping
  import opened Invariants
  import opened ClosingTheYear
  import opened Acceptance

  /** A live entry carries the reference. */
  predicate CarriedBy(s: State, id: EntryId, reference: Reference) {
    id < |s.entries| && !s.entries[id].isVoid && s.entries[id].reference == Some(reference)
  }

  /** Some closed year has the day in it. */
  ghost predicate DayIsClosed(s: State, day: Date) {
    exists year :: year in s.years && s.years[year].closed
                   && s.years[year].window.start <= day <= s.years[year].window.end
  }

  /** The account is not there, or is out of use, as the error says. */
  predicate AccountTrouble(s: State, accounts: seq<AccountId>, error: Error) {
    || (error.AccountNotFound? && error.account in accounts && |s.accounts| <= error.account)
    || (error.AccountInactive? && error.account in accounts && error.account < |s.accounts|
        && !s.accounts[error.account].active)
  }

  // ------------------------------------------------------------------ entries

  /** Why an entry may be refused. */
  ghost predicate EntryRefusal(s: State, post: Post, error: Error) {
    || (error.InsufficientLines? && |post.lines| < 2)
    || (error.SumOverflows? && exists n :: 0 <= n <= |post.lines| && !InI64(Total(post.lines[..n])))
    || (error.NotBalanced? && error.sum == Total(post.lines) != 0)
    || PostRefusal(s, post, error)
  }

  ghost predicate PostRefusal(s: State, post: Post, error: Error) {
    || (error.DuplicateReference? && post.reference.Some? && CarriedBy(s, error.holder, Keyed(post.reference.value)))
    || AccountTrouble(s, AccountsOf(post.lines), error)
    || (error.PeriodClosed? && error.date == post.date && DayIsClosed(s, post.date))
  }

  lemma {:induction false} AccountsRefused(s: State, accounts: seq<AccountId>)
    ensures CheckAccounts(s, accounts).Some? ==> AccountTrouble(s, accounts, CheckAccounts(s, accounts).value)
  {
    if accounts != [] {
      AccountsRefused(s, accounts[1..]);
      assert accounts[0] in accounts && forall a :: a in accounts[1..] ==> a in accounts;
    }
  }

  lemma ChecksRefused(s: State, accounts: seq<AccountId>, day: Date, fenced: bool)
    ensures var e := CheckEntryInvariants(s, accounts, day, fenced);
            e.Some? ==> AccountTrouble(s, accounts, e.value) || (e.value == PeriodClosed(day) && DayIsClosed(s, day))
  {
    AccountsRefused(s, accounts);
  }

  lemma PostRefused(s: State, post: Post, fenced: bool)
    requires BuildPost(s, post, fenced).Reject?
    ensures PostRefusal(s, post, BuildPost(s, post, fenced).error)
  {
    ChecksRefused(s, AccountsOf(post.lines), post.date, fenced);
    hide CheckEntryInvariants, AccountTrouble, DayIsClosed;
  }

  lemma EntryRefused(s: State, books: Books, post: Post)
    requires Build(s, books, PostEntry(post)).Reject?
    ensures EntryRefusal(s, post, Build(s, books, PostEntry(post)).error)
  {
    SumsInRange(post.lines);
    CheckedTotalIsTotal(post.lines);
    hide CheckedTotal, Total, PostRefusal, BuildPost;
    if CheckEntryPure(post).None? {
      PostRefused(s, post, true);
    }
  }

  /** Why a void, an unvoid or a reassignment may be refused. */
  ghost predicate ChangeRefusal(s: State, id: EntryId, cmd: Command, error: Error) {
    match error
    case EntryNotFound => |s.entries| <= id
    case AlreadyVoided => id < |s.entries| && s.entries[id].isVoid && !cmd.UnvoidEntry?
    case NotVoided => id < |s.entries| && !s.entries[id].isVoid && cmd.UnvoidEntry?
    case ClosingEntryFenced =>
      id < |s.entries| && s.entries[id].source == Some(Closing) && DayIsClosed(s, s.entries[id].date) && cmd.VoidEntry?
    case ReferenceReclaimed(holder) =>
      cmd.UnvoidEntry? && id < |s.entries| && s.entries[id].reference.Some? && holder != id
      && CarriedBy(s, holder, s.entries[id].reference.value)
    case LineNotFound => cmd.ReassignLine? && id < |s.entries| && |s.entries[id].lines| <= cmd.line
    case SameAccount =>
      cmd.ReassignLine? && id < |s.entries| && cmd.line < |s.entries[id].lines|
      && s.entries[id].lines[cmd.line].account == cmd.to
    case _ => cmd.ReassignLine? && AccountTrouble(s, [cmd.to], error)
  }

  lemma ChangeRefused(s: State, books: Books, cmd: Command)
    requires (cmd.VoidEntry? || cmd.UnvoidEntry? || cmd.ReassignLine?) && Build(s, books, cmd).Reject?
    ensures ChangeRefusal(s, cmd.entry, cmd, Build(s, books, cmd).error)
  {
    if cmd.ReassignLine? {
      assert cmd.to in [cmd.to];
    }
  }

  // ------------------------------------------------------------------ bills

  /** Why a bill, a payment or the voiding of a bill may be refused. */
  ghost predicate BillRefusal(s: State, cmd: Command, error: Error) {
    match cmd
    case ReceiveBill(order) =>
      || (error.AmountNotPositive? && order.amount <= 0)
      || (error.DuplicateReference? && CarriedBy(s, error.holder, BillReference(s, order)))
      || AccountTrouble(s, [order.debit, order.payable], error)
      || (error == PeriodClosed(order.issued) && DayIsClosed(s, order.issued))
    case PayBill(bill, paidOn, applied, from, payable) =>
      || (error.BillNotFound? && |s.bills| <= bill)
      || (error.BillVoid? && bill < |s.bills| && s.bills[bill].status == Void)
      || (error.BillPaid? && bill < |s.bills| && s.bills[bill].paid == s.bills[bill].amount)
      || (error.OverPayment? && bill < |s.bills|
          && error.remaining == s.bills[bill].amount - s.bills[bill].paid < applied)
      || AccountTrouble(s, [payable, from], error)
      || (error == PeriodClosed(paidOn) && DayIsClosed(s, paidOn))
    case VoidBill(bill) =>
      || (error.BillNotFound? && |s.bills| <= bill)
      || (error.BillVoid? && bill < |s.bills| && s.bills[bill].status == Void)
      || (error.HasPayments? && bill < |s.bills| && 0 < s.bills[bill].paid)
      || (error.AlreadyVoided? && bill < |s.bills| && s.bills[bill].entry < |s.entries|
          && s.entries[s.bills[bill].entry].isVoid)
    case _ => false
  }

  lemma BillRefused(s: State, books: Books, cmd: Command)
    requires Inv(s, books) && (cmd.ReceiveBill? || cmd.PayBill? || cmd.VoidBill?) && Build(s, books, cmd).Reject?
    ensures BillRefusal(s, cmd, Build(s, books, cmd).error)
  {
    hide InvBut, BillRefusal, BuildReceiveBill, BuildPayBill, BuildVoidBill;
    match cmd
    case ReceiveBill(order) => ReceiveRefused(s, order);
    case PayBill(_, _, _, _, _) => PaymentRefused(s, books, cmd);
    case VoidBill(bill) => VoidBillRefused(s, books, bill);
  }

  lemma ReceiveRefused(s: State, order: BillOrder)
    requires BuildReceiveBill(s, order).Reject?
    ensures BillRefusal(s, ReceiveBill(order), BuildReceiveBill(s, order).error)
  {
    ChecksRefused(s, [order.debit, order.payable], order.issued, true);
    hide DayIsClosed, AccountTrouble, CheckEntryInvariants;
  }

  lemma PaymentRefused(s: State, books: Books, cmd: Command)
    requires Inv(s, books) && cmd.PayBill? && Build(s, books, cmd).Reject?
    ensures BillRefusal(s, cmd, Build(s, books, cmd).error)
  {
    if cmd.bill < |s.bills| {
      StatusSaysWhatIsPaid(s, books, cmd.bill);
    }
    ChecksRefused(s, [cmd.payable, cmd.from], cmd.paidOn, true);
    hide InvBut, DayIsClosed, AccountTrouble, CheckEntryInvariants;
  }

  lemma VoidBillRefused(s: State, books: Books, bill: BillId)
    requires Inv(s, books) && BuildVoidBill(s, bill).Reject?
    ensures BillRefusal(s, VoidBill(bill), BuildVoidBill(s, bill).error)
  {
    if bill < |s.bills| {
      assert BillOk(s.entries, s.bills[bill]);
    }
    hide InvBut;
  }

  // ------------------------------------------------------------------ years

  /** Why a close, a reopening or a division may be refused. */
  ghost predicate YearRefusal(s: State, books: Books, cmd: Command, error: Error) {
    match cmd
    case CloseBooks(year, target, includeDraws) => CloseRefusal(s, books, year, target, includeDraws, error)
    case ReopenBooks(year) =>
      && error.NotClosed? && !(year in s.years && s.years[year].closed)
      && ReferenceIsFree(s, Keyed(CloseKey(year)))
    case AllocateYear(year) =>
      || (error.NotClosed? && ReferenceIsFree(s, Keyed(CloseKey(year))))
      || (error.AlreadyAllocated? && CarriedBy(s, error.entry, Keyed(AllocationKey(year))))
      || exists id: EntryId :: CarriedBy(s, id, Keyed(CloseKey(year)))
                               && DivisionRefusal(s, books, year, s.entries[id], error)
    case _ => false
  }

  ghost predicate DivisionRefusal(s: State, books: Books, year: int, entry: Entry, error: Error) {
    var candidates, net := YearAccounts(s, books, entry.lines), ResultOf(s, entry.lines);
    var shares := PartnerShares(books, year, net);
    || (error.NoYearAccount? && |candidates| != 1)
    || (error.NothingToAllocate? && net == 0)
    || (shares.Refused? && error == shares.error)
    || (|candidates| == 1 && shares.Done?
        && PostRefusal(s, AllocationPost(books, year, entry.date, candidates[0], net, shares.value), error))
  }

  ghost predicate CloseRefusal(s: State, books: Books, year: int, target: Target, includeDraws: bool, error: Error) {
    var window, net := YearWindow(s, books, year), NetResult(s, books, year, includeDraws);
    var shares := PartnerShares(books, year, net);
    || (error.EquityAccountMissing? && |s.accounts| <= target.account)
    || (error.EquityAccountWrongType? && target.account < |s.accounts| && s.accounts[target.account].kind != Equity)
    || (error.AlreadyClosed? && CarriedBy(s, error.entry, Keyed(CloseKey(year))))
    || BalanceRefusal(s, window, error)
    || (target.ToPartners? && shares.Refused? && error == shares.error)
    || PostRefusal(s, ClosingPost(s, books, year, target.account, includeDraws), error)
    || (target.ToPartners? && shares.Done?
        && PostRefusal(s, AllocationPost(books, year, window.end, target.account, net, shares.value), error))
  }

  /** What revenue and expense accounts hold at either end of the year, as the error says. */
  ghost predicate BalanceRefusal(s: State, window: Window, error: Error) {
    || (error.NothingToClose? && forall a :: IsIncome(s, a) ==> !HoldsOn(s, a, window.end))
    || (error.InactiveAccountHoldsBalance?
        && IsIncome(s, error.account) && HoldsOn(s, error.account, window.end) && !InUse(s, error.account))
    || (error.PriorActivityNotClosed? && IsIncome(s, error.account) && HoldsOn(s, error.account, window.start - 1))
  }

  lemma SweptNames(s: State, asOf: Date)
    ensures var swept := AccountsWithBalances(s, Revenue, asOf, None) + AccountsWithBalances(s, Expense, asOf, None);
            && (swept == [] ==> forall a :: IsIncome(s, a) ==> !HoldsOn(s, a, asOf))
            && (swept != [] ==> IsIncome(s, swept[0].account) && HoldsOn(s, swept[0].account, asOf))
            && (FirstInactive(swept).Some? ==>
                  var a := FirstInactive(swept).value.account; IsIncome(s, a) && HoldsOn(s, a, asOf) && !InUse(s, a))
  {
    IncomeSwept(s, asOf);
    hide AccountsWithBalances, IsIncome, HoldsOn, InUse;
    var swept := AccountsWithBalances(s, Revenue, asOf, None) + AccountsWithBalances(s, Expense, asOf, None);
    if swept != [] {
      assert swept[0] in swept;
    }
    InactiveIsSwept(swept);
  }

  lemma {:induction false} InactiveIsSwept(swept: seq<Swept>)
    ensures FirstInactive(swept).Some? ==> FirstInactive(swept).value in swept && !FirstInactive(swept).value.active
  {
    if swept != [] {
      InactiveIsSwept(swept[1..]);
    }
  }

  lemma CanCloseRefused(s: State, books: Books, window: Window)
    requires Inv(s, books)
    ensures var e := CheckCanClose(s, window, AccountsWithBalances(s, Revenue, window.end, None),
                                   AccountsWithBalances(s, Expense, window.end, None));
            e.Some? ==> BalanceRefusal(s, window, e.value)
  {
    EntriesSumToZero(s, books);
    DebitsEqualCredits(s.entries, window.end);
    SweptNames(s, window.end);
    SweptNames(s, window.start - 1);
    hide AccountsWithBalances, Debits, Credits, IsIncome, HoldsOn, InUse, InvBut, FirstInactive;
  }

  lemma CloseRefused(s: State, books: Books, year: int, target: Target, includeDraws: bool)
    requires Inv(s, books) && BuildClose(s, books, year, target, includeDraws).Reject?
    ensures CloseRefusal(s, books, year, target, includeDraws, BuildClose(s, books, year, target, includeDraws).error)
  {
    var window, net := YearWindow(s, books, year), NetResult(s, books, year, includeDraws);
    var closing := ClosingPost(s, books, year, target.account, includeDraws);
    CanCloseRefused(s, books, window);
    if BuildPost(s, closing, true).Reject? {
      PostRefused(s, closing, true);
    }
    var shares := PartnerShares(books, year, net);
    if target.ToPartners? && shares.Done? {
      var allocation := AllocationPost(books, year, window.end, target.account, net, shares.value);
      if BuildPost(s, allocation, true).Reject? {
        PostRefused(s, allocation, true);
      }
    }
    hide CheckCanClose, AccountsWithBalances, ClosingPost, AllocationPost, NetResult, PartnerShares, YearWindow,
         BuildPost,
         PostRefusal, BalanceRefusal, InvBut;
  }

  lemma AllocateRefused(s: State, books: Books, year: int)
    requires BuildAllocate(s, books, year).Reject?
    ensures YearRefusal(s, books, AllocateYear(year), BuildAllocate(s, books, year).error)
  {
    FreeMeans(s, Keyed(CloseKey(year)));
    var closing := Holder(s.entries, Keyed(CloseKey(year)));
    if closing.Some? {
      var entry := s.entries[closing.value];
      var candidates, net := YearAccounts(s, books, entry.lines), ResultOf(s, entry.lines);
      var shares := PartnerShares(books, year, net);
      if |candidates| == 1 && shares.Done? {
        var allocation := AllocationPost(books, year, entry.date, candidates[0], net, shares.value);
        if BuildPost(s, allocation, false).Reject? {
          PostRefused(s, allocation, false);
        }
      }
      hide YearAccounts, ResultOf, PartnerShares, AllocationPost, BuildPost, PostRefusal, ReferenceIsFree, Holder;
      assert CarriedBy(s, closing.value, Keyed(CloseKey(year)));
    }
  }

  lemma YearRefused(s: State, books: Books, cmd: Command)
    requires Inv(s, books) && (cmd.CloseBooks? || cmd.ReopenBooks? || cmd.AllocateYear?) && Build(s, books, cmd).Reject?
    ensures YearRefusal(s, books, cmd, Build(s, books, cmd).error)
  {
    hide InvBut, CloseRefusal, BuildClose, BuildAllocate, DivisionRefusal, ReferenceIsFree;
    match cmd
    case CloseBooks(year, target, includeDraws) => CloseRefused(s, books, year, target, includeDraws);
    case ReopenBooks(year) => FreeMeans(s, Keyed(CloseKey(year)));
    case AllocateYear(year) => AllocateRefused(s, books, year);
  }

  // ------------------------------------------------------------------ every command

  /** Why a command on an account, or the opening of a year, may be refused. */
  predicate OtherRefusal(s: State, cmd: Command, error: Error) {
    match cmd
    case CreateAccount(account) => error.NumberTaken? && exists a | a in s.accounts :: a.number == account.number
    case DeactivateAccount(id) =>
      || (error == AccountNotFound(id) && |s.accounts| <= id)
      || (error.AlreadyInactive? && id < |s.accounts| && !s.accounts[id].active)
      || (error.HasBalance? && LiveBalance(s.entries, id) != 0)
    case ReactivateAccount(id) =>
      || (error == AccountNotFound(id) && |s.accounts| <= id)
      || (error.AlreadyActive? && id < |s.accounts| && s.accounts[id].active)
    case OpenYear(year, _) => error.YearAlreadyOpen? && year in s.years
    case _ => false
  }

  ghost predicate TrueReason(s: State, books: Books, cmd: Command, error: Error) {
    match cmd
    case PostEntry(post) => EntryRefusal(s, post, error)
    case VoidEntry(id) => ChangeRefusal(s, id, cmd, error)
    case UnvoidEntry(id) => ChangeRefusal(s, id, cmd, error)
    case ReassignLine(id, _, _) => ChangeRefusal(s, id, cmd, error)
    case ReceiveBill(_) => BillRefusal(s, cmd, error)
    case PayBill(_, _, _, _, _) => BillRefusal(s, cmd, error)
    case VoidBill(_) => BillRefusal(s, cmd, error)
    case CloseBooks(_, _, _) => YearRefusal(s, books, cmd, error)
    case ReopenBooks(_) => YearRefusal(s, books, cmd, error)
    case AllocateYear(_) => YearRefusal(s, books, cmd, error)
    case _ => OtherRefusal(s, cmd, error)
  }

  /** Whatever a command is refused for is so: the account it names is missing or out of use, the entry it names carries
      the reference, the day it names is closed, the balance it names is there. */
  lemma RefusalsAreTrue(s: State, books: Books, cmd: Command)
    requires Inv(s, books) && Build(s, books, cmd).Reject?
    ensures TrueReason(s, books, cmd, Build(s, books, cmd).error)
  {
    hide InvBut, EntryRefusal, ChangeRefusal, BillRefusal, YearRefusal;
    match cmd
    case PostEntry(post) => EntryRefused(s, books, post);
    case VoidEntry(_) => ChangeRefused(s, books, cmd);
    case UnvoidEntry(_) => ChangeRefused(s, books, cmd);
    case ReassignLine(_, _, _) => ChangeRefused(s, books, cmd);
    case ReceiveBill(_) => BillRefused(s, books, cmd);
    case PayBill(_, _, _, _, _) => BillRefused(s, books, cmd);
    case VoidBill(_) => BillRefused(s, books, cmd);
    case CloseBooks(_, _, _) => YearRefused(s, books, cmd);
    case ReopenBooks(_) => YearRefused(s, books, cmd);
    case AllocateYear(_) => YearRefused(s, books, cmd);
    case _ => OtherRefused(s, books, cmd);
  }

  lemma OtherRefused(s: State, books: Books, cmd: Command)
    requires cmd.CreateAccount? || cmd.DeactivateAccount? || cmd.ReactivateAccount? || cmd.OpenYear?
    requires Build(s, books, cmd).Reject?
    ensures OtherRefusal(s, cmd, Build(s, books, cmd).error)
  {
    hide LiveBalance;
  }
}
