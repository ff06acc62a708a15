/** What a closed year is protected from, over whole runs. */
module ClosedYears {
  import opened Options
  import opened Sums
  import opened Calendar
  import opened Ledger
  import opened Commands
  import opened Sweeping
  import opened Invariants
  import opened ClosingTheYear
  import opened Runs
  import opened Payables

  // ------------------------------------------------------------------ the seal

  /** In sound books a closed year has exactly one live closing entry, dated its last day, and
      voiding it is refused. */
  lemma ClosedYearIsSealed(s: State, books: Books, year: int)
    requires Inv(s, books) && year in s.years && s.years[year].closed
    ensures exists i :: 0 <= i < |s.entries| && Seals(s.entries[i], year, s.years[year].window.end)
                        && BuildVoid(s, i) == Reject(ClosingEntryFenced)
                        && forall j :: 0 <= j < |s.entries| && Holds(s.entries[j], Keyed(CloseKey(year))) ==> j == i
  {
    assert YearOk(s, books, year);
    var i := s.years[year].closing.value;
    FiscalYearsTile(books.startMonth, year, year, 0);
    assert s.years[year].window.Contains(s.entries[i].date);
    forall j | 0 <= j < |s.entries| && Holds(s.entries[j], Keyed(CloseKey(year))) ensures j == i {
      HolderIsUnique(s.entries, Keyed(CloseKey(year)), j);
      HolderIsUnique(s.entries, Keyed(CloseKey(year)), i);
    }
    assert Seals(s.entries[i], year, s.years[year].window.end) && BuildVoid(s, i) == Reject(ClosingEntryFenced);
  }

  /** Nothing but reopening the year lifts its fence or lets go of its closing entry. */
  lemma OnlyReopenUnseals(s: State, books: Books, cmd: Command, year: int)
    requires Inv(s, books) && Proper(books) && Lawful(books, cmd) && year in s.years && s.years[year].closed
    requires cmd != ReopenBooks(year)
    ensures var t := Step(s, books, cmd);
            && year in t.years && t.years[year] == s.years[year]
            && t.years[year].closing.Some? && t.years[year].closing.value < |t.entries|
            && Seals(t.entries[t.years[year].closing.value], year, t.years[year].window.end)
  {
    StepKeepsInvariant(s, books, cmd);
    hide Step;
    YearStays(s, books, cmd, year);
    assert YearOk(Step(s, books, cmd), books, year);
  }

  lemma YearStays(s: State, books: Books, cmd: Command, year: int)
    requires Inv(s, books) && Proper(books) && year in s.years && s.years[year].closed && cmd != ReopenBooks(year)
    ensures year in Step(s, books, cmd).years && Step(s, books, cmd).years[year] == s.years[year]
  {
    hide InvBut, Build, Record, ClosePosts;
    var verdict := Build(s, books, cmd);
    if verdict.Append? && Record(s, verdict.events).Some? {
      if cmd.CloseBooks? {
        CloseLeavesYear(s, books, cmd, year);
      } else if cmd.ReopenBooks? {
        ReopenLeavesYear(s, books, cmd, year);
      } else {
        OtherCommandsKeepYears(s, books, cmd, year);
      }
    }
  }

  lemma CloseLeavesYear(s: State, books: Books, cmd: Command, year: int)
    requires Inv(s, books) && Proper(books) && year in s.years && s.years[year].closed
    requires cmd.CloseBooks? && Build(s, books, cmd).Append?
    ensures year in Step(s, books, cmd).years && Step(s, books, cmd).years[year] == s.years[year]
  {
    hide InvBut, BuildClose, Record, ClosePosts, YearWindow;
    CloseKeeps(s, books, cmd.year, cmd.target, cmd.includeDraws);
  }

  lemma ReopenLeavesYear(s: State, books: Books, cmd: Command, year: int)
    requires Inv(s, books) && year in s.years && cmd != ReopenBooks(year)
    requires cmd.ReopenBooks? && Build(s, books, cmd).Append?
    ensures year in Step(s, books, cmd).years && Step(s, books, cmd).years[year] == s.years[year]
  {
    hide InvBut, BuildReopen, Record, Holder;
    ReopenKeeps(s, books, cmd.year);
  }

  lemma OtherCommandsKeepYears(s: State, books: Books, cmd: Command, year: int)
    requires !cmd.CloseBooks? && !cmd.ReopenBooks? && Build(s, books, cmd).Append?
    requires year in s.years && Record(s, Build(s, books, cmd).events).Some?
    ensures year in Record(s, Build(s, books, cmd).events).value.years
    ensures Record(s, Build(s, books, cmd).events).value.years[year] == s.years[year]
  {
    hide CheckEntryPure, CheckEntryInvariants, AllocationPost, PartnerShares, YearAccounts, ResultOf, BillLines,
         PaymentLines, Holder;
    var events := Build(s, books, cmd).events;
    KeepsYears(s, events, year);
  }

  lemma {:induction false} KeepsYears(s: State, events: seq<Event>, year: int)
    requires Record(s, events).Some? && year in s.years
    requires forall e :: e in events ==>
                           !e.YearClosed? && !e.YearReopened? && e != YearOpened(year, s.years[year].window)
    requires forall e :: e in events ==> e.YearOpened? ==> e.year != year
    ensures year in Record(s, events).value.years && Record(s, events).value.years[year] == s.years[year]
  {
    if events != [] {
      assert events[|events| - 1] in events;
      KeepsYears(s, events[..|events| - 1], year);
    }
  }

  // ------------------------------------------------------------------ nothing moves inside

  /** The references of closes and allocations are on entries dated the last day of a year on file. */
  ghost predicate Unsquatted(s: State) {
    forall i, year :: 0 <= i < |s.entries|
        && (Holds(s.entries[i], Keyed(CloseKey(year))) || Holds(s.entries[i], Keyed(AllocationKey(year))))
      ==> year in s.years && s.entries[i].date == s.years[year].window.end
  }

  /** In a closed year no revenue or expense account moved, all entries taken together. */
  ghost predicate QuietYear(s: State, year: int)
    requires year in s.years
  {
    forall a :: IsIncome(s, a) ==> Movement(s.entries, a, s.years[year].window) == 0
  }

  ghost predicate Quiet(s: State) {
    Unsquatted(s) && forall year :: year in s.years && s.years[year].closed ==> QuietYear(s, year)
  }

  /** No partner's capital account is a revenue or expense account. */
  ghost predicate CapitalIsCapital(s: State, books: Books) {
    forall l :: l in books.links && l.role == Contribution ==> !IsIncome(s, l.account)
  }

  predicate Reserved(reference: Option<Key>) {
    reference.Some? && (reference.value.CloseKey? || reference.value.AllocationKey?)
  }

  /** Commands fenced by closed years, handed no reference of a close or an allocation. Voiding,
      unvoiding, reassigning and voiding a bill are not fenced. */
  predicate Ordinary(cmd: Command) {
    match cmd
    case PostEntry(post) => !Reserved(post.reference)
    case ReceiveBill(order) => !Reserved(order.reference)
    case VoidEntry(_) => false
    case UnvoidEntry(_) => false
    case ReassignLine(_, _, _) => false
    case VoidBill(_) => false
    case _ => true
  }

  /** Every command is ordinary but the four that no closed year fences, and those handed a reference of a close or an
      allocation. */
  lemma OrdinaryMeans(cmd: Command)
    ensures Ordinary(cmd)
       <==> && !cmd.VoidEntry? && !cmd.UnvoidEntry? && !cmd.ReassignLine? && !cmd.VoidBill?
            && (forall year ::
                  && (cmd.PostEntry? ==>
                        cmd.post.reference != Some(CloseKey(year)) && cmd.post.reference != Some(AllocationKey(year)))
                  && (cmd.ReceiveBill? ==>
                        cmd.order.reference != Some(CloseKey(year))
                        && cmd.order.reference != Some(AllocationKey(year))))
  {
    if cmd.PostEntry? && Reserved(cmd.post.reference) {
      assert cmd.post.reference == Some(CloseKey(cmd.post.reference.value.year))
          || cmd.post.reference == Some(AllocationKey(cmd.post.reference.value.year));
    }
    if cmd.ReceiveBill? && Reserved(cmd.order.reference) {
      assert cmd.order.reference == Some(CloseKey(cmd.order.reference.value.year))
          || cmd.order.reference == Some(AllocationKey(cmd.order.reference.value.year));
    }
  }

  /** An entry dated in no closed year, or with nothing on revenue and expense, disturbs none. */
  lemma PostStaysQuiet(s: State, e: Entry)
    requires Quiet(s) && !e.isVoid
    requires !FencedOn(s, e.date) || forall a :: IsIncome(s, a) ==> On(e.lines, a) == 0
    requires forall year :: e.reference == Some(Keyed(CloseKey(year)))
                            || e.reference == Some(Keyed(AllocationKey(year)))
               ==> year in s.years && e.date == s.years[year].window.end
    ensures Quiet(With(s, [e]))
  {
    var t := With(s, [e]);
    forall year | year in t.years && t.years[year].closed ensures QuietYear(t, year) {
      assert QuietYear(s, year);
      forall a | IsIncome(t, a) ensures Movement(t.entries, a, t.years[year].window) == 0 {
        assert IsIncome(s, a);
        MovementPosted(s.entries, e, a, s.years[year].window);
      }
    }
    forall i, year | 0 <= i < |t.entries|
        && (Holds(t.entries[i], Keyed(CloseKey(year))) || Holds(t.entries[i], Keyed(AllocationKey(year))))
      ensures year in t.years && t.entries[i].date == t.years[year].window.end
    {
      assert i < |s.entries| ==> t.entries[i] == s.entries[i];
    }
  }

  /** A close leaves its own year quiet and disturbs no other. */
  lemma CloseStaysQuiet(s: State, books: Books, year: int, target: Target, includeDraws: bool)
    requires Inv(s, books) && Proper(books) && Quiet(s) && CapitalIsCapital(s, books)
    requires BuildClose(s, books, year, target, includeDraws).Append?
    ensures Quiet(AfterClose(s, books, year, ClosePosts(s, books, year, target, includeDraws)))
  {
    hide BuildClose, ClosePosts, InvBut, QuietYear;
    var t := AfterClose(s, books, year, ClosePosts(s, books, year, target, includeDraws));
    forall y | y in t.years && t.years[y].closed ensures QuietYear(t, y) {
      YearQuietAfterClose(s, books, year, target, includeDraws, y);
    }
    CloseStaysUnsquatted(s, books, year, target, includeDraws);
  }

  lemma YearQuietAfterClose(s: State, books: Books, year: int, target: Target, includeDraws: bool, y: int)
    requires Inv(s, books) && Proper(books) && Quiet(s) && CapitalIsCapital(s, books)
    requires BuildClose(s, books, year, target, includeDraws).Append?
    requires y == year || (y in s.years && s.years[y].closed)
    ensures QuietYear(AfterClose(s, books, year, ClosePosts(s, books, year, target, includeDraws)), y)
  {
    var posts := ClosePosts(s, books, year, target, includeDraws);
    var t := AfterClose(s, books, year, posts);
    CloseFacts(s, books, year, target, includeDraws);
    CloseShape(s, books, year, target, includeDraws);
    CloseOpens(s, books, year);
    PostsOfAClose(s, books, year, target, includeDraws);
    hide BuildClose, ClosePosts, InvBut, NetResult;
    if y == year {
      forall a | IsIncome(t, a) ensures Movement(t.entries, a, t.years[y].window) == 0 {
        CloseZeroes(s, books, year, target, includeDraws, a);
      }
    } else {
      PostsElsewhere(s, books, y, year, posts);
      forall a | IsIncome(t, a) ensures Movement(t.entries, a, t.years[y].window) == 0 {
        assert QuietYear(s, y) && IsIncome(s, a);
      }
    }
  }

  lemma CloseStaysUnsquatted(s: State, books: Books, year: int, target: Target, includeDraws: bool)
    requires Unsquatted(s) && BuildClose(s, books, year, target, includeDraws).Append?
    ensures Unsquatted(AfterClose(s, books, year, ClosePosts(s, books, year, target, includeDraws)))
  {
    var posts := ClosePosts(s, books, year, target, includeDraws);
    var t := AfterClose(s, books, year, posts);
    PostsOfAClose(s, books, year, target, includeDraws);
    hide BuildClose, ClosePosts;
    forall i, y | 0 <= i < |t.entries|
    && (Holds(t.entries[i], Keyed(CloseKey(y))) || Holds(t.entries[i], Keyed(AllocationKey(y))))
      ensures y in t.years && t.entries[i].date == t.years[y].window.end
    {
      if i < |s.entries| {
        assert t.entries[i] == s.entries[i];
      } else {
        assert t.entries[i] == posts[i - |s.entries|];
      }
    }
  }

  /** Entries dated the end of one fiscal year do nothing inside another. */
  lemma PostsElsewhere(s: State, books: Books, y: int, year: int, posts: seq<Entry>)
    requires Inv(s, books) && y in s.years && y != year
    requires forall e :: e in posts ==> e.date == FiscalWindow(books.startMonth, year).end
    ensures forall a :: Movement(s.entries + posts, a, s.years[y].window) == Movement(s.entries, a, s.years[y].window)
  {
    FiscalYearsTile(books.startMonth, year, y, FiscalWindow(books.startMonth, year).end);
    FiscalYearsTile(books.startMonth, year, year, 0);
    forall a ensures Movement(s.entries + posts, a, s.years[y].window) == Movement(s.entries, a, s.years[y].window) {
      VoidTailWeighsNothing(s.entries, posts, (e: Entry) => EffectWithin(e, a, s.years[y].window));
    }
  }

  /** Every post of a close is dated the year end, under the year's own references. */
  lemma PostsOfAClose(s: State, books: Books, year: int, target: Target, includeDraws: bool)
    requires BuildClose(s, books, year, target, includeDraws).Append?
    ensures forall e :: e in ClosePosts(s, books, year, target, includeDraws) ==>
              e.date == YearWindow(s, books, year).end && !e.isVoid
              && (e.reference == Some(Keyed(CloseKey(year))) || e.reference == Some(Keyed(AllocationKey(year))))
  {
    CloseShape(s, books, year, target, includeDraws);
  }

  /** Draws or not, partners or not, an income account does nothing over a year being closed. */
  lemma CloseZeroes(s: State, books: Books, year: int, target: Target, includeDraws: bool, a: AccountId)
    requires Inv(s, books) && Proper(books) && CapitalIsCapital(s, books)
    requires BuildClose(s, books, year, target, includeDraws).Append? && IsIncome(s, a)
    ensures var posts := ClosePosts(s, books, year, target, includeDraws);
            Movement(AfterClose(s, books, year, posts).entries, a, YearWindow(s, books, year)) == 0
  {
    hide *;
    var window := YearWindow(s, books, year);
    var posts := ClosePosts(s, books, year, target, includeDraws);
    ClosedWindow(s, books, year, target, includeDraws);
    OpeningWasClear(s, books, year, target, includeDraws, a);
    BalanceSplits(s.entries, a, window);
    PostsTakeWhatWasHeld(s, books, year, target, includeDraws, a);
    MovementTogether(s.entries, posts, a, window);
    AfterCloseEntries(s, books, year, posts);
  }

  lemma MovementTogether(entries: seq<Entry>, more: seq<Entry>, a: AccountId, window: Window)
    ensures Movement(entries + more, a, window)
         == Movement(entries, a, window) + Sum(more, (e: Entry) => EffectWithin(e, a, window))
  {
    SumConcat(entries, more, (e: Entry) => EffectWithin(e, a, window));
  }

  lemma OpeningWasClear(s: State, books: Books, year: int, target: Target, includeDraws: bool, a: AccountId)
    requires BuildClose(s, books, year, target, includeDraws).Append? && IsIncome(s, a)
    ensures Balance(s.entries, a, YearWindow(s, books, year).start - 1) == 0
  {
    var asOf := YearWindow(s, books, year).start - 1;
    NothingOpened(s, books, year, target, includeDraws);
    hide BuildClose, YearWindow, Balance, SweptBelow;
    SweptIsComplete(s, Revenue, asOf, None, |s.accounts|, 0);
    SweptIsComplete(s, Expense, asOf, None, |s.accounts|, 0);
  }

  lemma PostsTakeWhatWasHeld(s: State, books: Books, year: int, target: Target, includeDraws: bool, a: AccountId)
    requires Proper(books) && CapitalIsCapital(s, books)
    requires YearWindow(s, books, year).start <= YearWindow(s, books, year).end
    requires BuildClose(s, books, year, target, includeDraws).Append? && IsIncome(s, a)
    ensures Sum(ClosePosts(s, books, year, target, includeDraws),
                (e: Entry) => EffectWithin(e, a, YearWindow(s, books, year)))
         == -Balance(s.entries, a, YearWindow(s, books, year).end)
  {
    var window := YearWindow(s, books, year);
    var net := NetResult(s, books, year, includeDraws);
    var closing := ClosingPost(s, books, year, target.account, includeDraws);
    var weigh := (e: Entry) => EffectWithin(e, a, window);
    CloseFacts(s, books, year, target, includeDraws);
    CloseShape(s, books, year, target, includeDraws);
    ClosingEffect(s, books, year, target.account, includeDraws, a);
    SumAppend([], Posted(closing), weigh);
    assert [] + [Posted(closing)] == [Posted(closing)];
    if target.ToPartners? && net != 0 {
      var shares := PartnerShares(books, year, net).value;
      var allocation := AllocationPost(books, year, window.end, target.account, net, shares);
      NoShareOnIncome(s, books, year, net, a);
      AllocationMoves(books, year, window.end, target.account, net, a);
      SumAppend([Posted(closing)], Posted(allocation), weigh);
    }
  }

  lemma NoShareOnIncome(s: State, books: Books, year: int, net: Cents, a: AccountId)
    requires Proper(books) && CapitalIsCapital(s, books) && PartnerShares(books, year, net).Done? && IsIncome(s, a)
    ensures ShareOf(PartnerShares(books, year, net).value, a) == 0
  {
    SharesAddBack(books, year, net);
    SumZero(PartnerShares(books, year, net).value, (x: Share) => if x.account == a then x.cents else 0);
  }

  lemma AllocationMoves(books: Books, year: int, date: Date, account: AccountId, net: Cents, a: AccountId)
    requires Proper(books) && PartnerShares(books, year, net).Done? && net != 0
    ensures On(AllocationPost(books, year, date, account, net, PartnerShares(books, year, net).value).lines, a)
         == (if a == account then net else 0) - ShareOf(PartnerShares(books, year, net).value, a)
  {
    SharesAddBack(books, year, net);
    AllocationIsSound(books, year, date, account, net, PartnerShares(books, year, net).value);
  }

  /** What a reopen does inside any window: it takes out what the entries it voids did there. */
  lemma ReopenMovesExactly(s: State, year: int, a: AccountId, window: Window)
    requires UniqueReferences(s.entries)
    ensures Movement(Reopened(s, year).entries, a, window)
         == Movement(s.entries, a, window)
            - HolderEffect(s, Keyed(AllocationKey(year)), a, window) - HolderEffect(s, Keyed(CloseKey(year)), a, window)
  {
    var t := VoidedHolder(s, Keyed(AllocationKey(year)));
    HolderSurvives(s.entries, Keyed(AllocationKey(year)), Keyed(CloseKey(year)));
    var allocation := Holder(s.entries, Keyed(AllocationKey(year)));
    var closing := Holder(s.entries, Keyed(CloseKey(year)));
    if allocation.Some? {
      MovementChanged(s.entries, allocation.value, s.entries[allocation.value].(isVoid := true), a, window);
    }
    if closing.Some? {
      MovementChanged(t.entries, closing.value, t.entries[closing.value].(isVoid := true), a, window);
    }
  }

  /** What the live holder of a reference does inside a window. */
  function HolderEffect(s: State, reference: Reference, a: AccountId, window: Window): Cents {
    var id := Holder(s.entries, reference);
    if id.Some? then EffectWithin(s.entries[id.value], a, window) else 0
  }

  lemma {:induction false} ReopenStaysQuiet(s: State, books: Books, year: int)
    requires Inv(s, books) && Quiet(s) && BuildReopen(s, year).Append?
    ensures Quiet(Reopened(s, year))
  {
    var u := Reopened(s, year);
    assert year in s.years;
    forall y | y in u.years && u.years[y].closed ensures QuietYear(u, y) {
      assert y != year && QuietYear(s, y);
      forall a | IsIncome(u, a) ensures Movement(u.entries, a, u.years[y].window) == 0 {
        assert IsIncome(s, a);
        ReopenMovesExactly(s, year, a, s.years[y].window);
        FiscalYearsTile(books.startMonth, year, y, s.years[year].window.end);
        FiscalYearsTile(books.startMonth, year, year, 0);
      }
    }
    forall i, y | 0 <= i < |u.entries|
    && (Holds(u.entries[i], Keyed(CloseKey(y))) || Holds(u.entries[i], Keyed(AllocationKey(y))))
      ensures y in u.years && u.entries[i].date == u.years[y].window.end
    {
      assert s.entries[i].date == u.entries[i].date && s.entries[i].reference == u.entries[i].reference;
      assert Holds(s.entries[i], Keyed(CloseKey(y))) || Holds(s.entries[i], Keyed(AllocationKey(y)));
    }
  }

  lemma {:induction false} AllocateStaysQuiet(s: State, books: Books, year: int)
    requires Inv(s, books) && Proper(books) && Quiet(s) && CapitalIsCapital(s, books)
             && BuildAllocate(s, books, year).Append?
    ensures Record(s, BuildAllocate(s, books, year).events).Some?
            && Quiet(Record(s, BuildAllocate(s, books, year).events).value)
  {
    var id := Holder(s.entries, Keyed(CloseKey(year))).value;
    var entry := s.entries[id];
    assert Holds(s.entries[id], Keyed(CloseKey(year)));
    var net := ResultOf(s, entry.lines);
    var account := YearAccounts(s, books, entry.lines)[0];
    YearAccountsAreEquity(s, books, entry.lines);
    var shares := PartnerShares(books, year, net).value;
    var post := AllocationPost(books, year, entry.date, account, net, shares);
    forall a | IsIncome(s, a) ensures On(post.lines, a) == 0 {
      NoShareOnIncome(s, books, year, net, a);
      AllocationMoves(books, year, entry.date, account, net, a);
    }
    PostStaysQuiet(s, Posted(post));
    AllocateKeeps(s, books, year);
    assert BuildAllocate(s, books, year).events == [Posting(post)];
    PostingProjects(s, post);
    RecordOne(s, Posting(post));
  }

  lemma {:induction false} YearAccountsAreEquity(s: State, books: Books, lines: seq<Line>)
    ensures forall a :: a in YearAccounts(s, books, lines) ==> a < |s.accounts| && s.accounts[a].kind == Equity
  {
    if lines != [] {
      YearAccountsAreEquity(s, books, lines[..|lines| - 1]);
    }
  }

  lemma BillIsUnfenced(s: State, order: BillOrder)
    requires BuildReceiveBill(s, order).Append?
    ensures !FencedOn(s, order.issued)
  {
    hide Holder, FencedOn, CheckAccounts;
  }

  lemma PaymentIsUnfenced(s: State, books: Books, cmd: Command)
    requires cmd.PayBill? && Build(s, books, cmd).Append?
    ensures !FencedOn(s, cmd.paidOn)
  {
    hide Holder, FencedOn, CheckAccounts;
  }

  lemma BillsStayQuiet(s: State, books: Books, cmd: Command)
    requires Inv(s, books) && Quiet(s) && Ordinary(cmd) && (cmd.ReceiveBill? || cmd.PayBill?)
    requires Build(s, books, cmd).Append? && Record(s, Build(s, books, cmd).events).Some?
    ensures Quiet(Step(s, books, cmd))
  {
    hide InvBut, Quiet, FencedOn, Step, Record, BuildReceiveBill, BuildPayBill;
    if cmd.ReceiveBill? {
      ReceivedBooks(s, books, cmd.order);
      BillIsUnfenced(s, cmd.order);
      var e := ReceivedEntry(s, cmd.order);
      PostStaysQuiet(s, e);
      OnlyBillsDiffer(With(s, [e]), Step(s, books, cmd));
    } else {
      PayBillKeeps(s, books, cmd);
      PaidBooks(s, books, cmd);
      PaymentIsUnfenced(s, books, cmd);
      var e := PaidEntry(s, cmd);
      PostStaysQuiet(s, e);
      OnlyBillsDiffer(With(s, [e]), Step(s, books, cmd));
    }
  }

  lemma OnlyBillsDiffer(s: State, t: State)
    requires Quiet(s) && t == s.(bills := t.bills)
    ensures Quiet(t)
  {
    forall year | year in t.years && t.years[year].closed ensures QuietYear(t, year) {
      assert QuietYear(s, year);
      assert forall a :: IsIncome(t, a) ==> IsIncome(s, a);
    }
  }

  lemma AccountsStayQuiet(s: State, books: Books, t: State)
    requires Inv(s, books) && Quiet(s) && ChartGrows(s, t) && t == s.(accounts := t.accounts)
    ensures Quiet(t)
  {
    forall year | year in t.years && t.years[year].closed ensures QuietYear(t, year) {
      assert QuietYear(s, year);
      forall a: AccountId | IsIncome(t, a) ensures Movement(t.entries, a, t.years[year].window) == 0 {
        if a < |s.accounts| {
          assert IsIncome(s, a);
        } else {
          UnusedAccountNeverMoved(s, books, a, t.years[year].window);
        }
      }
    }
  }

  lemma UnusedAccountNeverMoved(s: State, books: Books, a: AccountId, window: Window)
    requires Inv(s, books) && |s.accounts| <= a
    ensures Movement(s.entries, a, window) == 0
  {
    forall e | e in s.entries ensures EffectWithin(e, a, window) == 0 {
      var i :| 0 <= i < |s.entries| && s.entries[i] == e;
      assert EntryOk(s.entries[i], i, |s.accounts|);
      SumZero(e.lines, (l: Line) => LineOn(l, a));
    }
    SumZero(s.entries, (e: Entry) => EffectWithin(e, a, window));
  }

  lemma PostCommandStaysQuiet(s: State, books: Books, post: Post)
    requires Inv(s, books) && Quiet(s) && Ordinary(PostEntry(post)) && Build(s, books, PostEntry(post)).Append?
    ensures Quiet(Step(s, books, PostEntry(post)))
  {
    CheckedTotalIsTotal(post.lines);
    hide InvBut, Quiet, FencedOn, CheckAccounts, Holder, Project;
    PostCommandKeeps(s, books, post, true);
    PostStaysQuiet(s, Posted(post));
  }

  lemma AccountCommandStaysQuiet(s: State, books: Books, cmd: Command)
    requires Inv(s, books) && Quiet(s) && (cmd.CreateAccount? || cmd.DeactivateAccount? || cmd.ReactivateAccount?)
    ensures Quiet(Step(s, books, cmd))
  {
    hide InvBut, Quiet, LiveBalance, NumberOk;
    StepGrowsChart(s, books, cmd);
    if Build(s, books, cmd).Append? {
      RecordOne(s, Build(s, books, cmd).events[0]);
      AccountsStayQuiet(s, books, Step(s, books, cmd));
    }
  }

  lemma YearCommandStaysQuiet(s: State, books: Books, cmd: Command)
    requires Inv(s, books) && Proper(books) && Quiet(s) && CapitalIsCapital(s, books)
    requires cmd.OpenYear? || cmd.CloseBooks? || cmd.ReopenBooks? || cmd.AllocateYear?
    ensures Quiet(Step(s, books, cmd))
  {
    hide InvBut, Quiet, BuildClose, BuildReopen, BuildAllocate, AfterClose, Reopened, CapitalIsCapital, Record, Project;
    if Build(s, books, cmd).Append? {
      match cmd
      case OpenYear(year, window) =>
        RecordOne(s, YearOpened(year, window));
        YearOpens(s, year, window);
        OpenYearStaysQuiet(s, year, window);
      case CloseBooks(year, target, draws) =>
        CloseStaysQuiet(s, books, year, target, draws);
        CloseKeeps(s, books, year, target, draws);
      case ReopenBooks(year) =>
        ReopenStaysQuiet(s, books, year);
        ReopenKeeps(s, books, year);
      case AllocateYear(year) => AllocateStaysQuiet(s, books, year);
    }
  }

  lemma YearOpens(s: State, year: int, window: Window)
    requires year !in s.years
    ensures Project(s, YearOpened(year, window)) == Some(s.(years := s.years[year := FiscalYear(window, false, None)]))
  {
  }

  lemma StepStaysQuiet(s: State, books: Books, cmd: Command)
    requires Inv(s, books) && Proper(books) && Quiet(s) && CapitalIsCapital(s, books) && Lawful(books, cmd)
             && Ordinary(cmd)
    ensures Quiet(Step(s, books, cmd))
  {
    var verdict := Build(s, books, cmd);
    hide InvBut, Quiet, Build, Record, CapitalIsCapital;
    if verdict.Append? && Record(s, verdict.events).Some? {
      match cmd
      case PostEntry(post) => PostCommandStaysQuiet(s, books, post);
      case OpenYear(_, _) => YearCommandStaysQuiet(s, books, cmd);
      case CloseBooks(_, _, _) => YearCommandStaysQuiet(s, books, cmd);
      case ReopenBooks(_) => YearCommandStaysQuiet(s, books, cmd);
      case AllocateYear(_) => YearCommandStaysQuiet(s, books, cmd);
      case ReceiveBill(_) => BillsStayQuiet(s, books, cmd);
      case PayBill(_, _, _, _, _) => BillsStayQuiet(s, books, cmd);
      case CreateAccount(_) => AccountCommandStaysQuiet(s, books, cmd);
      case DeactivateAccount(_) => AccountCommandStaysQuiet(s, books, cmd);
      case ReactivateAccount(_) => AccountCommandStaysQuiet(s, books, cmd);
    }
  }

  lemma OpenYearStaysQuiet(s: State, year: int, window: Window)
    requires Quiet(s) && year !in s.years
    ensures Quiet(s.(years := s.years[year := FiscalYear(window, false, None)]))
  {
    var t := s.(years := s.years[year := FiscalYear(window, false, None)]);
    forall y | y in t.years && t.years[y].closed ensures QuietYear(t, y) {
      assert QuietYear(s, y);
      assert forall a :: IsIncome(t, a) ==> IsIncome(s, a);
    }
  }

  /** Over any run of fenced commands, each revenue and expense account's movement inside each
      closed year is zero, so long as no caller hands in a close's reference and no partner's
      capital account is a revenue or expense account. */
  lemma {:induction false} ClosedYearsStayQuiet(books: Books, cmds: seq<Command>)
    requires Proper(books)
    requires forall cmd :: cmd in cmds ==> Lawful(books, cmd) && Ordinary(cmd)
    requires CapitalIsCapital(Run(EMPTY, books, cmds), books)
    ensures Quiet(Run(EMPTY, books, cmds))
  {
    if cmds != [] {
      var n := |cmds| - 1;
      var s := Run(EMPTY, books, cmds[..n]);
      EmptyBooksAreSound(books);
      RunsKeepInvariant(EMPTY, books, cmds[..n]);
      StepGrowsChart(s, books, cmds[n]);
      assert cmds[n] in cmds;
      assert CapitalIsCapital(s, books) by {
        assert forall a :: IsIncome(s, a) ==> IsIncome(Step(s, books, cmds[n]), a);
      }
      ClosedYearsStayQuiet(books, cmds[..n]);
      StepStaysQuiet(s, books, cmds[n]);
    }
  }
}
