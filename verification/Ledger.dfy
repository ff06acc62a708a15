/** The event-sourced ledger: what an event is, how one is folded into the books, and what the
    books then say. Accounts, entries and bills are named by the order they were recorded in, which
    is how a freshly minted identifier is modelled: it names nothing yet. */
module Ledger {
  import opened Options
  import opened Sums
  import opened Calendar
  import opened Texts

  type Cents = int
  type AccountId = nat
  type EntryId = nat
  type BillId = nat
  /** A currency code, by its place in the order of three capital letters. */
  type Currency = nat

  const USD: Currency := (('U' - 'A') as nat * 26 + ('S' - 'A') as nat) * 26 + ('D' - 'A') as nat

  datatype AccountType = Asset | Liability | Equity | Revenue | Expense

  datatype Account = Account(kind: AccountType, number: string, name: string, parent: Option<AccountId>, active: bool)

  /** Revenue and expense: what a year-end close sweeps. */
  predicate Income(kind: AccountType) {
    kind == Revenue || kind == Expense
  }

  /** Positive is a debit, negative a credit. */
  datatype Line = Line(account: AccountId, amount: Cents, currency: Currency)

  datatype Source = Manual | Import | EventService | BillPayable | BillPayment | Closing | OtherSource

  /** An idempotency key a caller may hand in. */
  datatype Key =
    | CloseKey(year: int)
    | AllocationKey(year: int)
    | BillKey(bill: BillId)
    | ServiceKey(service: nat, event: nat)
    | RollupKey(service: nat, period: Period)
    | AmazonKey(order: string, paidOn: Date, amount: Cents, card: string, settlement: Option<string>)
    | TextKey(text: string)

  /** What an entry carries. A bill payment's reference names the entry's own fresh identifier, so
      no caller can have handed it in. */
  datatype Reference = Keyed(key: Key) | PaymentOf(bill: BillId, entry: EntryId)

  datatype Entry = Entry(date: Date, lines: seq<Line>, reference: Option<Reference>, source: Option<Source>,
                         isVoid: bool)

  datatype FiscalYear = FiscalYear(window: Window, closed: bool, closing: Option<EntryId>)

  datatype BillStatus = Open | Partial | Paid | Void

  datatype Bill = Bill(amount: Cents, paid: Cents, status: BillStatus, entry: EntryId)

  /** The projection tables. */
  datatype State = State(accounts: seq<Account>, entries: seq<Entry>, years: map<int, FiscalYear>, bills: seq<Bill>)

  const EMPTY := State([], [], map[], [])

  datatype Event =
    | AccountCreated(account: Account)
    | AccountDeactivated(id: AccountId)
    | AccountReactivated(id: AccountId)
    | EntryPosted(date: Date, lines: seq<Line>, reference: Option<Reference>, source: Option<Source>)
    | EntryVoided(entry: EntryId)
    | EntryUnvoided(entry: EntryId)
    | LineReassigned(entry: EntryId, line: nat, to: AccountId)
    | YearOpened(year: int, window: Window)
    | YearClosed(year: int, closing: EntryId)
    | YearReopened(year: int)
    | BillReceived(amount: Cents, receipt: EntryId)
    | BillPaymentApplied(bill: BillId, payment: EntryId, applied: Cents)
    | BillVoided(bill: BillId)

  // ------------------------------------------------------------------ reading the books

  function Total(lines: seq<Line>): Cents {
    Sum(lines, (l: Line) => l.amount)
  }

  function LineOn(l: Line, account: AccountId): Cents {
    if l.account == account then l.amount else 0
  }

  /** What an entry's lines do to one account. */
  function On(lines: seq<Line>, account: AccountId): Cents {
    Sum(lines, (l: Line) => LineOn(l, account))
  }

  function Effect(e: Entry, account: AccountId, asOf: Date): Cents {
    if !e.isVoid && e.date <= asOf then On(e.lines, account) else 0
  }

  /** An account's ledger balance at the end of a day, closing entries included. */
  function Balance(entries: seq<Entry>, account: AccountId, asOf: Date): Cents {
    Sum(entries, (e: Entry) => Effect(e, account, asOf))
  }

  function LiveEffect(e: Entry, account: AccountId): Cents {
    if e.isVoid then 0 else On(e.lines, account)
  }

  /** The balance over all time. */
  function LiveBalance(entries: seq<Entry>, account: AccountId): Cents {
    Sum(entries, (e: Entry) => LiveEffect(e, account))
  }

  function EffectWithin(e: Entry, account: AccountId, window: Window): Cents {
    if !e.isVoid && window.Contains(e.date) then On(e.lines, account) else 0
  }

  /** What an account did inside a window of days, closing entries included. */
  function Movement(entries: seq<Entry>, account: AccountId, window: Window): Cents {
    Sum(entries, (e: Entry) => EffectWithin(e, account, window))
  }

  function Debit(l: Line): Cents { if l.amount > 0 then l.amount else 0 }

  function Credit(l: Line): Cents { if l.amount < 0 then -l.amount else 0 }

  /** A line is a debit or a credit of its size, and never both. */
  lemma DebitOrCredit(l: Line)
    ensures 0 <= Debit(l) && 0 <= Credit(l) && Debit(l) - Credit(l) == l.amount && (Debit(l) == 0 || Credit(l) == 0)
  {
  }

  function DebitsOf(e: Entry, asOf: Date): Cents {
    if !e.isVoid && e.date <= asOf then Sum(e.lines, Debit) else 0
  }

  function CreditsOf(e: Entry, asOf: Date): Cents {
    if !e.isVoid && e.date <= asOf then Sum(e.lines, Credit) else 0
  }

  /** `trial_balance_at`: read from the lines themselves, whatever the chart says. */
  function Debits(entries: seq<Entry>, asOf: Date): Cents {
    Sum(entries, (e: Entry) => DebitsOf(e, asOf))
  }

  function Credits(entries: seq<Entry>, asOf: Date): Cents {
    Sum(entries, (e: Entry) => CreditsOf(e, asOf))
  }

  predicate Holds(e: Entry, reference: Reference) {
    !e.isVoid && e.reference == Some(reference)
  }

  /** `check_reference_free_in_txn`: the live entry that holds a reference, if any. */
  function Holder(entries: seq<Entry>, reference: Reference): (id: Option<EntryId>)
    ensures id.Some? ==> id.value < |entries| && Holds(entries[id.value], reference)
    ensures id.None? ==> forall i :: 0 <= i < |entries| ==> !Holds(entries[i], reference)
  {
    if entries == [] then None
    else
      var earlier := Holder(entries[..|entries| - 1], reference);
      if earlier.Some? then earlier
      else if Holds(entries[|entries| - 1], reference) then Some(|entries| - 1)
      else None
  }

  /** Whether a closed fiscal year contains the day. */
  predicate FencedOn(s: State, day: Date) {
    exists year | year in s.years :: s.years[year].closed && s.years[year].window.Contains(day)
  }

  // ------------------------------------------------------------------ recording an event

  predicate NumberChar(c: char) {
    IsDigit(c) || 'a' <= c <= 'z' || 'A' <= c <= 'Z' || c == '-' || c == '.'
  }

  /** `validate_account_number`. */
  predicate NumberOk(number: string) {
    !Blank(number) && forall c :: c in number ==> NumberChar(c)
  }

  /** A number is well formed when it is not empty and is made of letters, digits, hyphens and points. */
  lemma NumberOkMeans(number: string)
    ensures NumberOk(number)
       <==> number != "" && forall c :: c in number ==>
              '0' <= c <= '9' || 'a' <= c <= 'z' || 'A' <= c <= 'Z' || c == '-' || c == '.'
  {
    BlankMeans(number);
    hide Blank;
    if number != "" {
      assert number[0] in number;
    }
  }

  /** `validate_event`: the structural rules every append applies. */
  predicate Sound(event: Event) {
    match event
    case AccountCreated(account) => NumberOk(account.number) && !Blank(account.name)
    case EntryPosted(_, lines, _, _) => 2 <= |lines| && Total(lines) == 0
    case BillReceived(amount, _) => 0 < amount
    case BillPaymentApplied(_, _, applied) => 0 < applied
    case _ => true
  }

  function StatusAfter(amount: Cents, paid: Cents): BillStatus {
    if amount <= paid then Paid else if 0 < paid then Partial else Open
  }

  /** `Projector::apply`. None is a constraint of the tables refusing the row: a line on an account
      that does not exist, a fiscal year inserted twice, or a second live entry with a reference. */
  function Project(s: State, event: Event): Option<State> {
    match event
    case AccountCreated(account) => Some(s.(accounts := s.accounts + [account]))
    case AccountDeactivated(id) =>
      if id < |s.accounts| then Some(s.(accounts := s.accounts[id := s.accounts[id].(active := false)])) else Some(s)
    case AccountReactivated(id) =>
      if id < |s.accounts| then Some(s.(accounts := s.accounts[id := s.accounts[id].(active := true)])) else Some(s)
    case EntryPosted(date, lines, reference, source) =>
      if (exists l | l in lines :: |s.accounts| <= l.account) then None
      else if reference.Some? && Holder(s.entries, reference.value).Some? then None
      else Some(s.(entries := s.entries + [Entry(date, lines, reference, source, false)]))
    case EntryVoided(id) =>
      if id < |s.entries| then Some(s.(entries := s.entries[id := s.entries[id].(isVoid := true)])) else Some(s)
    case EntryUnvoided(id) =>
      if |s.entries| <= id then Some(s)
      else
        var e := s.entries[id];
        if e.isVoid && e.reference.Some? && Holder(s.entries, e.reference.value).Some? then None
        else Some(s.(entries := s.entries[id := e.(isVoid := false)]))
    case LineReassigned(id, line, to) =>
      if |s.accounts| <= to then None
      else if id < |s.entries| && line < |s.entries[id].lines| then
        Some(s.(entries := s.entries[id := Reassigned(s.entries[id], line, to)]))
      else Some(s)
    case YearOpened(year, window) =>
      if year in s.years then None else Some(s.(years := s.years[year := FiscalYear(window, false, None)]))
    case YearClosed(year, closing) =>
      if year in s.years then
        Some(s.(years := s.years[year := s.years[year].(closed := true, closing := Some(closing))]))
      else Some(s)
    case YearReopened(year) =>
      if year in s.years then
        Some(s.(years := s.years[year := s.years[year].(closed := false, closing := None)]))
      else Some(s)
    case BillReceived(amount, receipt) => Some(s.(bills := s.bills + [Bill(amount, 0, Open, receipt)]))
    case BillPaymentApplied(id, _, applied) =>
      if id < |s.bills| then
        var b := s.bills[id];
        var paid := b.paid + applied;
        Some(s.(bills := s.bills[id := b.(paid := paid, status := StatusAfter(b.amount, paid))]))
      else Some(s)
    case BillVoided(id) =>
      if id < |s.bills| then Some(s.(bills := s.bills[id := s.bills[id].(status := Void)])) else Some(s)
  }

  function Reassigned(e: Entry, line: nat, to: AccountId): Entry
    requires line < |e.lines|
  {
    e.(lines := e.lines[line := e.lines[line].(account := to)])
  }

  /** A batch recorded in one transaction: every event is sound and projects, or nothing happens. */
  function Record(s: State, events: seq<Event>): Option<State> {
    if events == [] then Some(s)
    else
      var before := Record(s, events[..|events| - 1]);
      if before.Some? && Sound(events[|events| - 1]) then Project(before.value, events[|events| - 1]) else None
  }

  lemma {:induction false} RecordConcat(s: State, first: seq<Event>, second: seq<Event>)
    requires Record(s, first).Some?
    ensures Record(s, first + second) == Record(Record(s, first).value, second)
  {
    hide Project, Sound;
    if second == [] {
      assert first + second == first;
    } else {
      var n := |second| - 1;
      RecordConcat(s, first, second[..n]);
      assert (first + second)[..|first| + n] == first + second[..n];
    }
  }

  /** Short batches, written out. */
  lemma RecordOne(s: State, a: Event)
    ensures Record(s, [a]) == if Sound(a) then Project(s, a) else None
  {
    assert [a][..0] == [];
  }

  lemma RecordCons(s: State, a: Event, rest: seq<Event>)
    requires Sound(a) && Project(s, a).Some?
    ensures Record(s, [a] + rest) == Record(Project(s, a).value, rest)
  {
    RecordOne(s, a);
    RecordConcat(s, [a], rest);
  }

  // ------------------------------------------------------------------ laws of the sums

  lemma OnConcat(a: seq<Line>, b: seq<Line>, account: AccountId)
    ensures On(a + b, account) == On(a, account) + On(b, account)
  {
    SumConcat(a, b, (l: Line) => LineOn(l, account));
  }

  lemma OnOne(l: Line, account: AccountId)
    ensures On([l], account) == LineOn(l, account)
  {
    SumAppend([], l, (m: Line) => LineOn(m, account));
    assert [] + [l] == [l];
  }

  lemma TotalConcat(a: seq<Line>, b: seq<Line>)
    ensures Total(a + b) == Total(a) + Total(b)
  {
    SumConcat(a, b, (l: Line) => l.amount);
  }

  lemma TotalOne(l: Line)
    ensures Total([l]) == l.amount
  {
    SumAppend([], l, (m: Line) => m.amount);
    assert [] + [l] == [l];
  }

  lemma TotalPair(a: Line, b: Line)
    ensures Total([a, b]) == a.amount + b.amount
    ensures forall account :: On([a, b], account) == LineOn(a, account) + LineOn(b, account)
  {
    assert [a, b] == [a] + [b];
    TotalConcat([a], [b]);
    TotalOne(a);
    TotalOne(b);
    forall account ensures On([a, b], account) == LineOn(a, account) + LineOn(b, account) {
      OnConcat([a], [b], account);
      OnOne(a, account);
      OnOne(b, account);
    }
  }

  lemma BalancePosted(entries: seq<Entry>, e: Entry, account: AccountId, asOf: Date)
    ensures Balance(entries + [e], account, asOf) == Balance(entries, account, asOf) + Effect(e, account, asOf)
  {
    SumAppend(entries, e, (x: Entry) => Effect(x, account, asOf));
  }

  lemma BalanceChanged(entries: seq<Entry>, i: EntryId, e: Entry, account: AccountId, asOf: Date)
    requires i < |entries|
    ensures Balance(entries[i := e], account, asOf)
         == Balance(entries, account, asOf) - Effect(entries[i], account, asOf) + Effect(e, account, asOf)
  {
    SumUpdate(entries, i, e, (x: Entry) => Effect(x, account, asOf));
  }

  lemma LivePosted(entries: seq<Entry>, e: Entry, account: AccountId)
    ensures LiveBalance(entries + [e], account) == LiveBalance(entries, account) + LiveEffect(e, account)
  {
    SumAppend(entries, e, (x: Entry) => LiveEffect(x, account));
  }

  lemma LiveChanged(entries: seq<Entry>, i: EntryId, e: Entry, account: AccountId)
    requires i < |entries|
    ensures LiveBalance(entries[i := e], account)
         == LiveBalance(entries, account) - LiveEffect(entries[i], account) + LiveEffect(e, account)
  {
    SumUpdate(entries, i, e, (x: Entry) => LiveEffect(x, account));
  }

  lemma MovementPosted(entries: seq<Entry>, e: Entry, account: AccountId, window: Window)
    ensures Movement(entries + [e], account, window)
         == Movement(entries, account, window) + EffectWithin(e, account, window)
  {
    SumAppend(entries, e, (x: Entry) => EffectWithin(x, account, window));
  }

  lemma MovementChanged(entries: seq<Entry>, i: EntryId, e: Entry, account: AccountId, window: Window)
    requires i < |entries|
    ensures Movement(entries[i := e], account, window)
         == Movement(entries, account, window) - EffectWithin(entries[i], account, window)
            + EffectWithin(e, account, window)
  {
    SumUpdate(entries, i, e, (x: Entry) => EffectWithin(x, account, window));
  }

  /** A window's movement is the closing balance less the opening one. */
  lemma BalanceSplits(entries: seq<Entry>, account: AccountId, window: Window)
    requires window.start <= window.end + 1
    ensures Balance(entries, account, window.end)
         == Balance(entries, account, window.start - 1) + Movement(entries, account, window)
  {
    SumPlus(entries, (e: Entry) => Effect(e, account, window.start - 1),
            (e: Entry) => EffectWithin(e, account, window),
            (e: Entry) => Effect(e, account, window.end));
  }
}
