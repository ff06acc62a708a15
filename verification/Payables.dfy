/** Bills against their control account. */
module Payables {
  import opened Options
  import opened Sums
  import opened Ledger
  import opened Commands
  import opened Invariants
  import opened Runs

  function OwedOn(b: Bill): Cents {
    if b.status == Void then 0 else b.amount - b.paid
  }

  /** What is still owed on every bill that is not void. */
  function Owed(bills: seq<Bill>): Cents {
    Sum(bills, OwedOn)
  }

  /** The payable account holds what the bills say is owed, as a credit; and each standing bill's
      entry put its amount there. */
  ghost predicate Agrees(s: State, payable: AccountId) {
    && LiveBalance(s.entries, payable) == -Owed(s.bills)
    && forall k :: 0 <= k < |s.bills| && s.bills[k].status != Void ==>
         s.bills[k].entry < |s.entries| && On(s.entries[s.bills[k].entry].lines, payable) == -s.bills[k].amount
  }

  /** Bill commands on the one payable account, whose other side is some other account; and anything
      that posts nothing to it. */
  predicate OnPayable(cmd: Command, payable: AccountId) {
    match cmd
    case ReceiveBill(order) => order.payable == payable && order.debit != payable
    case PayBill(_, _, _, from, account) => account == payable && from != payable
    case VoidBill(_) => true
    case PostEntry(post) => forall l | l in post.lines :: l.account != payable
    case OpenYear(_, _) => true
    case CreateAccount(_) => true
    case DeactivateAccount(_) => true
    case ReactivateAccount(_) => true
    case _ => false
  }

  /** The books after an entry and a change to the bills. */
  function WithBills(s: State, e: Entry, bills: seq<Bill>): State {
    s.(entries := s.entries + [e], bills := bills)
  }

  /** What posting an entry on the account, and a new list of bills, do to the agreement. */
  lemma AgreementAfter(s: State, payable: AccountId, e: Entry, bills: seq<Bill>)
    requires Agrees(s, payable) && !e.isVoid
    requires forall k :: 0 <= k < |bills| && bills[k].status != Void ==>
               bills[k].entry <= |s.entries| && On((s.entries + [e])[bills[k].entry].lines, payable) == -bills[k].amount
    ensures Agrees(WithBills(s, e, bills), payable) <==> On(e.lines, payable) == Owed(s.bills) - Owed(bills)
  {
    hide On;
    LivePosted(s.entries, e, payable);
  }

  function ReceivedEntry(s: State, order: BillOrder): Entry {
    Entry(order.issued, BillLines(order),
          Some(Keyed(if order.reference.Some? then order.reference.value
                     else BillKey(|s.bills|))), Some(BillPayable), false)
  }

  lemma ReceivedBooks(s: State, books: Books, order: BillOrder)
    requires Inv(s, books) && BuildReceiveBill(s, order).Append?
    ensures Step(s, books, ReceiveBill(order))
         == WithBills(s, ReceivedEntry(s, order), s.bills + [Bill(order.amount, 0, Open, |s.entries|)])
  {
    var events := BuildReceiveBill(s, order).events;
    ReceiveBillKeeps(s, books, order);
    hide InvBut, BuildReceiveBill, BillLines, Record;
    assert events == [events[0]] + [events[1]] by { BillEvents(s, order); }
    BillEvents(s, order);
    RecordOne(s, events[0]);
    if Sound(events[0]) && Project(s, events[0]).Some? {
      RecordCons(s, events[0], [events[1]]);
      RecordOne(Project(s, events[0]).value, events[1]);
    } else {
      FirstFails(s, events[0], events[1]);
    }
  }

  lemma BillEvents(s: State, order: BillOrder)
    requires BuildReceiveBill(s, order).Append?
    ensures BuildReceiveBill(s, order).events
         == [EntryPosted(order.issued, BillLines(order), ReceivedEntry(s, order).reference, Some(BillPayable)),
             BillReceived(order.amount, |s.entries|)]
  {
  }

  lemma FirstFails(s: State, a: Event, b: Event)
    requires !Sound(a) || Project(s, a).None?
    ensures Record(s, [a, b]).None?
  {
    assert [a, b][..1] == [a];
    RecordOne(s, a);
  }

  /** Receiving a bill on the account keeps the agreement exactly when the other side is not the
      account itself. */
  lemma ReceiveKeepsAgreement(s: State, books: Books, order: BillOrder, payable: AccountId)
    requires Inv(s, books) && Agrees(s, payable) && order.payable == payable && BuildReceiveBill(s, order).Append?
    ensures Agrees(Step(s, books, ReceiveBill(order)), payable) <==> order.debit != payable
  {
    ReceivedBooks(s, books, order);
    ReceiveIsPositive(s, order);
    hide InvBut, Step, BuildReceiveBill;
    var e, bill := ReceivedEntry(s, order), Bill(order.amount, 0, Open, |s.entries|);
    TotalPair(BillLines(order)[0], BillLines(order)[1]);
    SumAppend(s.bills, bill, OwedOn);
    if order.debit != payable {
      AgreementAfter(s, payable, e, s.bills + [bill]);
    } else {
      assert (s.bills + [bill])[|s.bills|] == bill && (s.entries + [e])[|s.entries|] == e;
    }
  }

  lemma ReceiveIsPositive(s: State, order: BillOrder)
    requires BuildReceiveBill(s, order).Append?
    ensures 0 < order.amount
  {
  }

  function PaidEntry(s: State, cmd: Command): Entry
    requires cmd.PayBill?
  {
    Entry(cmd.paidOn, PaymentLines(cmd.applied, cmd.from, cmd.payable), Some(PaymentOf(cmd.bill, |s.entries|)),
          Some(BillPayment), false)
  }

  lemma PaidBooks(s: State, books: Books, cmd: Command)
    requires Inv(s, books) && cmd.PayBill? && Build(s, books, cmd).Append? && 0 < cmd.applied
    ensures cmd.bill < |s.bills| && s.bills[cmd.bill].status != Void
    ensures Step(s, books, cmd) == WithBills(s, PaidEntry(s, cmd), PaidBills(s.bills, cmd.bill, cmd.applied))
  {
    var events := Build(s, books, cmd).events;
    PayBillKeeps(s, books, cmd);
    PayEvents(s, books, cmd);
    hide InvBut, Build, PaymentLines, Record;
    RecordOne(s, events[0]);
    assert events == [events[0]] + [events[1]];
    if Sound(events[0]) && Project(s, events[0]).Some? {
      RecordCons(s, events[0], [events[1]]);
      RecordOne(Project(s, events[0]).value, events[1]);
    } else {
      FirstFails(s, events[0], events[1]);
    }
  }

  lemma PayEvents(s: State, books: Books, cmd: Command)
    requires cmd.PayBill? && Build(s, books, cmd).Append?
    ensures cmd.bill < |s.bills| && s.bills[cmd.bill].status != Void
    ensures Build(s, books, cmd).events
         == [EntryPosted(cmd.paidOn, PaymentLines(cmd.applied, cmd.from, cmd.payable),
                         Some(PaymentOf(cmd.bill, |s.entries|)), Some(BillPayment)),
             BillPaymentApplied(cmd.bill, |s.entries|, cmd.applied)]
  {
  }

  /** So does a positive payment, exactly when it is not paid from the payable account itself. */
  lemma PaymentKeepsAgreement(s: State, books: Books, cmd: Command, payable: AccountId)
    requires Inv(s, books) && Agrees(s, payable) && cmd.PayBill? && cmd.payable == payable
    requires Build(s, books, cmd).Append? && 0 < cmd.applied
    ensures Agrees(Step(s, books, cmd), payable) <==> cmd.from != payable
  {
    PaidBooks(s, books, cmd);
    hide InvBut, Step, Build, PaymentLines, StatusAfter, OwedOn;
    OwedLess(s.bills, cmd.bill, cmd.applied);
    PaidOn(cmd, payable);
    AgreementAfter(s, payable, PaidEntry(s, cmd), PaidBills(s.bills, cmd.bill, cmd.applied));
  }

  function PaidBills(bills: seq<Bill>, bill: BillId, applied: Cents): seq<Bill>
    requires bill < |bills|
  {
    var b := bills[bill];
    bills[bill := b.(paid := b.paid + applied, status := StatusAfter(b.amount, b.paid + applied))]
  }

  lemma OwedLess(bills: seq<Bill>, bill: BillId, applied: Cents)
    requires bill < |bills| && bills[bill].status != Void
    ensures Owed(PaidBills(bills, bill, applied)) == Owed(bills) - applied
    ensures PaidBills(bills, bill, applied)[bill].status != Void
  {
    SumUpdate(bills, bill, PaidBills(bills, bill, applied)[bill], OwedOn);
  }

  lemma PaidOn(cmd: Command, payable: AccountId)
    requires cmd.PayBill? && cmd.payable == payable
    ensures On(PaymentLines(cmd.applied, cmd.from, cmd.payable), payable) == cmd.applied - if cmd.from
         == payable then cmd.applied else 0
  {
    var lines := PaymentLines(cmd.applied, cmd.from, cmd.payable);
    TotalPair(lines[0], lines[1]);
  }

  lemma VoidedBillBooks(t: State, books: Books, bill: BillId)
    requires bill < |t.bills| && t.bills[bill].status != Void && t.bills[bill].paid <= 0
    requires t.bills[bill].entry < |t.entries| && !t.entries[t.bills[bill].entry].isVoid
    ensures BuildVoidBill(t, bill).Append?
    ensures var id := t.bills[bill].entry;
            Step(t, books, VoidBill(bill))
            == t.(entries := t.entries[id := t.entries[id].(isVoid := true)],
                  bills := t.bills[bill := t.bills[bill].(status := Void)])
  {
    var id := t.bills[bill].entry;
    var events := [EntryVoided(id), Ledger.BillVoided(bill)];
    assert BuildVoidBill(t, bill) == Append(events);
    assert events == [EntryVoided(id)] + [Ledger.BillVoided(bill)];
    RecordCons(t, EntryVoided(id), [Ledger.BillVoided(bill)]);
    RecordOne(Project(t, EntryVoided(id)).value, Ledger.BillVoided(bill));
  }

  lemma VoidKeepsAgreement(s: State, books: Books, bill: BillId, payable: AccountId)
    requires Inv(s, books) && Agrees(s, payable) && BuildVoidBill(s, bill).Append?
    ensures Agrees(Step(s, books, VoidBill(bill)), payable)
  {
    VoidableBill(s, books, bill);
    VoidedBillBooks(s, books, bill);
    hide InvBut, Step, BuildVoidBill, LiveBalance, On;
    var b := s.bills[bill];
    LiveChanged(s.entries, b.entry, s.entries[b.entry].(isVoid := true), payable);
    SumUpdate(s.bills, bill, b.(status := Void), OwedOn);
  }

  lemma VoidableBill(s: State, books: Books, bill: BillId)
    requires Inv(s, books) && BuildVoidBill(s, bill).Append?
    ensures bill < |s.bills| && s.bills[bill].status != Void && s.bills[bill].paid == 0
    ensures s.bills[bill].entry < |s.entries| && !s.entries[s.bills[bill].entry].isVoid
  {
    assert BillOk(s.entries, s.bills[bill]);
  }

  lemma PostKeepsAgreement(s: State, books: Books, post: Post, payable: AccountId)
    requires Inv(s, books) && Agrees(s, payable) && BuildPost(s, post, true).Append? && CheckEntryPure(post).None?
    requires forall l :: l in post.lines ==> l.account != payable
    ensures Agrees(Step(s, books, PostEntry(post)), payable)
  {
    CheckedTotalIsTotal(post.lines);
    PostCommandKeeps(s, books, post, true);
    SumZero(post.lines, (l: Line) => LineOn(l, payable));
    AgreementAfter(s, payable, Posted(post), s.bills);
  }

  /** A command that touches neither entries nor bills. */
  lemma OtherKeepsAgreement(s: State, books: Books, cmd: Command, payable: AccountId)
    requires Agrees(s, payable)
             && (cmd.OpenYear? || cmd.CreateAccount? || cmd.DeactivateAccount? || cmd.ReactivateAccount?)
    ensures Agrees(Step(s, books, cmd), payable)
  {
    hide NumberOk, LiveBalance, On;
    if Build(s, books, cmd).Append? {
      RecordOne(s, Build(s, books, cmd).events[0]);
    }
  }

  lemma StepKeepsAgreement(s: State, books: Books, cmd: Command, payable: AccountId)
    requires Inv(s, books) && Agrees(s, payable) && Lawful(books, cmd) && OnPayable(cmd, payable)
    ensures Agrees(Step(s, books, cmd), payable)
  {
    var verdict := Build(s, books, cmd);
    hide InvBut, Agrees, Record, BuildReceiveBill, BuildPayBill, BuildVoidBill, BuildPost, CheckEntryPure;
    if verdict.Append? {
      match cmd
      case ReceiveBill(order) => ReceiveKeepsAgreement(s, books, order, payable);
      case PayBill(_, _, _, _, _) =>
        PayBillKeeps(s, books, cmd);
        if 0 < cmd.applied { PaymentKeepsAgreement(s, books, cmd, payable); }
      case VoidBill(bill) => VoidKeepsAgreement(s, books, bill, payable);
      case PostEntry(post) => PostKeepsAgreement(s, books, post, payable);
      case OpenYear(_, _) => OtherKeepsAgreement(s, books, cmd, payable);
      case CreateAccount(_) => OtherKeepsAgreement(s, books, cmd, payable);
      case DeactivateAccount(_) => OtherKeepsAgreement(s, books, cmd, payable);
      case ReactivateAccount(_) => OtherKeepsAgreement(s, books, cmd, payable);
    }
  }

  /** Over any interleaving of such commands no bill is paid beyond its amount, and the payable
      account's live balance is minus what is owed. */
  lemma {:induction false} PayablesAgreeOverRuns(books: Books, cmds: seq<Command>, payable: AccountId)
    requires Proper(books)
    requires forall cmd :: cmd in cmds ==> Lawful(books, cmd) && OnPayable(cmd, payable)
    ensures var s := Run(EMPTY, books, cmds);
            && LiveBalance(s.entries, payable) == -Owed(s.bills)
            && Agrees(s, payable)
            && forall k :: 0 <= k < |s.bills| ==> 0 <= s.bills[k].paid <= s.bills[k].amount
  {
    EmptyBooksAreSound(books);
    RunsKeepInvariant(EMPTY, books, cmds);
    var s := Run(EMPTY, books, cmds);
    assert forall k :: 0 <= k < |s.bills| ==> BillOk(s.entries, s.bills[k]);
    if cmds != [] {
      var n := |cmds| - 1;
      PayablesAgreeOverRuns(books, cmds[..n], payable);
      RunsKeepInvariant(EMPTY, books, cmds[..n]);
      StepKeepsAgreement(Run(EMPTY, books, cmds[..n]), books, cmds[n], payable);
    }
  }
}
