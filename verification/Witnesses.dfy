/** Runs of a small shop in which a promise fails, one for each rule the promise is made under. */
module Witnesses {
  import opened Options
  import opened Sums
  import opened Calendar
  import opened Ledger
  import opened Texts
  import opened Commands
  import opened Invariants
  import opened Runs
  import opened Sweeping
  import opened ClosingTheYear
  import opened ClosedYears
  import opened Payables

  const SHOP := [
    Account(Revenue, "4000", "Sales", None, true),
    Account(Asset, "1000", "Cash", None, true),
    Account(Equity, "3000", "Result", None, true),
    Account(Expense, "5000", "Rent", None, true),
    Account(Liability, "2000", "Payable", None, true)]

  const SALES: AccountId := 0
  const CASH: AccountId := 1
  const RESULT: AccountId := 2
  const RENT: AccountId := 3
  const PAYABLE: AccountId := 4

  /** A sole owner's books, on calendar years. */
  const PLAIN := Books(1, 0, true, (year: int) => [], [], (year: int, net: Cents) => [])

  /** One partner, who takes the whole result on the revenue account. */
  const MISLINKED := Books(1, 0, false, (year: int) => [0], [Link(0, SALES, Contribution)],
                           (year: int, net: Cents) => [net])

  // ------------------------------------------------------------------ opening the shop

  function Creating(accounts: seq<Account>): seq<Command> {
    if accounts == [] then [] else Creating(accounts[..|accounts| - 1]) + [CreateAccount(accounts[|accounts| - 1])]
  }

  ghost predicate Creatable(accounts: seq<Account>) {
    && (forall i :: 0 <= i < |accounts| ==>
                      accounts[i].active && NumberOk(accounts[i].number) && !Blank(accounts[i].name))
    && (forall i, j :: 0 <= i < j < |accounts| ==> accounts[i].number != accounts[j].number)
  }

  lemma CreateStep(s: State, books: Books, account: Account)
    requires account.active && NumberOk(account.number) && !Blank(account.name)
    requires forall a :: a in s.accounts ==> a.number != account.number
    ensures Step(s, books, CreateAccount(account)) == s.(accounts := s.accounts + [account])
  {
    hide NumberOk, Blank;
    RecordOne(s, AccountCreated(account));
    assert BuildCreateAccount(s, account) == Append([AccountCreated(account)]);
  }

  lemma {:induction false} CreatingRuns(books: Books, accounts: seq<Account>)
    requires Creatable(accounts)
    ensures Run(EMPTY, books, Creating(accounts)) == State(accounts, [], map[], [])
  {
    hide NumberOk, Blank, Step;
    if accounts != [] {
      var n := |accounts| - 1;
      CreatingRuns(books, accounts[..n]);
      CreateStep(State(accounts[..n], [], map[], []), books, accounts[n]);
      assert accounts[..n] + [accounts[n]] == accounts;
      assert Creating(accounts)[..|Creating(accounts)| - 1] == Creating(accounts[..n]);
    }
  }

  lemma PlainAccount(a: Account)
    requires a.active && a.number != "" && AllDigits(a.number)
    requires a.name != "" && !IsSpace(a.name[0]) && !IsSpace(a.name[|a.name| - 1])
    ensures NumberOk(a.number) && !Blank(a.name)
  {
    Trimmed(a.number);
    Trimmed(a.name);
  }

  lemma ShopIsCreatable()
    ensures Creatable(SHOP)
  {
    hide NumberOk, Blank, AllDigits;
    forall i | 0 <= i < |SHOP| ensures AllDigits(SHOP[i].number) { ShopNumbers(i); }
    forall i | 0 <= i < |SHOP| ensures NumberOk(SHOP[i].number) && !Blank(SHOP[i].name) {
      PlainAccount(SHOP[i]);
    }
    assert forall i, j :: 0 <= i < j < |SHOP| ==> SHOP[i].number[0] != SHOP[j].number[0];
  }

  lemma ShopNumbers(i: nat)
    requires i < |SHOP|
    ensures AllDigits(SHOP[i].number)
  {
  }

  // ------------------------------------------------------------------ one sale

  /** A sale on the last day of a year, for cash or against the rent. */
  function Sale(year: int, to: AccountId, reference: Option<Key>): Post {
    Post(FiscalWindow(1, year).end, [Line(SALES, -100, 0), Line(to, 100, 0)], reference, Some(Manual))
  }

  function Selling(year: int, to: AccountId, reference: Option<Key>): seq<Command> {
    Creating(SHOP) + [PostEntry(Sale(year, to, reference))]
  }

  function Sold(year: int, to: AccountId, reference: Option<Key>): State {
    State(SHOP, [Posted(Sale(year, to, reference))], map[], [])
  }

  lemma SoldIsReached(books: Books, year: int, to: AccountId, reference: Option<Key>)
    requires Proper(books) && (to == CASH || to == RENT)
    ensures Run(EMPTY, books, Selling(year, to, reference)) == Sold(year, to, reference)
    ensures Inv(Sold(year, to, reference), books)
  {
    var s, post := State(SHOP, [], map[], []), Sale(year, to, reference);
    ShopIsOpen(books);
    SaleStep(books, year, to, reference);
    hide *;
    RunAppend(EMPTY, books, Creating(SHOP), [PostEntry(post)]);
    RunOne(s, books, PostEntry(post));
  }

  lemma ShopIsOpen(books: Books)
    ensures Run(EMPTY, books, Creating(SHOP)) == State(SHOP, [], map[], [])
    ensures Inv(State(SHOP, [], map[], []), books)
  {
    ShopIsCreatable();
    CreatingRuns(books, SHOP);
  }

  lemma SaleStep(books: Books, year: int, to: AccountId, reference: Option<Key>)
    requires to == CASH || to == RENT
    ensures Step(State(SHOP, [], map[], []), books, PostEntry(Sale(year, to, reference))) == Sold(year, to, reference)
    ensures Inv(Sold(year, to, reference), books)
  {
    var s, post := State(SHOP, [], map[], []), Sale(year, to, reference);
    SaleAdds(year, to, reference);
    SaleIsAccepted(s, year, to, reference);
    hide FiscalWindow, InvBut, Record, Project, Sale;
    ShopIsOpen(books);
    PostCommandKeeps(s, books, post, true);
  }

  lemma SaleAdds(year: int, to: AccountId, reference: Option<Key>)
    ensures var post := Sale(year, to, reference);
            CheckEntryPure(post).None? && Sound(Posting(post)) && Total(post.lines) == 0
    ensures forall a :: On(Sale(year, to, reference).lines, a)
                        == (if a == SALES then -100 else 0) + (if a == to then 100 else 0)
  {
    hide FiscalWindow;
    var lines := Sale(year, to, reference).lines;
    TotalPair(lines[0], lines[1]);
    CheckedPair(lines[0], lines[1]);
  }

  lemma CheckedPair(a: Line, b: Line)
    requires InI64(a.amount) && InI64(a.amount + b.amount)
    ensures CheckedTotal([a, b]) == Some(a.amount + b.amount)
  {
    assert [a, b][..1] == [a] && [a][..0] == [];
    assert CheckedTotal([a]) == Some(a.amount);
  }

  lemma SaleIsAccepted(s: State, year: int, to: AccountId, reference: Option<Key>)
    requires s == State(SHOP, [], map[], []) && (to == CASH || to == RENT)
    ensures BuildPost(s, Sale(year, to, reference), true).Append?
  {
    hide FiscalWindow;
    var accounts := AccountsOf(Sale(year, to, reference).lines);
    assert accounts == [SALES, to];
    assert Usable(s, accounts);
  }

  // ------------------------------------------------------------------ closing over it

  lemma SoldBalance(year: int, to: AccountId, reference: Option<Key>, a: AccountId, asOf: Date)
    requires to != SALES
    ensures Balance(Sold(year, to, reference).entries, a, asOf)
         == if asOf < FiscalWindow(1, year).end then 0 else if a == SALES then -100 else if a == to then 100 else 0
  {
    hide FiscalWindow;
    SaleAdds(year, to, reference);
    BalancePosted([], Posted(Sale(year, to, reference)), a, asOf);
    assert [] + [Posted(Sale(year, to, reference))] == [Posted(Sale(year, to, reference))];
  }

  lemma SoldSweeps(year: int, to: AccountId, reference: Option<Key>, asOf: Date)
    requires to == CASH || to == RENT
    ensures var s := Sold(year, to, reference);
            var over := FiscalWindow(1, year).end <= asOf;
            && AccountsWithBalances(s, Revenue, asOf, None) == (if over then [Swept(SALES, -100, true)] else [])
            && AccountsWithBalances(s, Expense, asOf, None)
               == (if over && to == RENT then [Swept(RENT, 100, true)] else [])
  {
    hide FiscalWindow, Balance;
    var s := Sold(year, to, reference);
    forall a: AccountId ensures Balance(s.entries, a, asOf)
         == if asOf < FiscalWindow(1, year).end then 0 else if a == SALES then -100 else if a == to then 100 else 0
    {
      SoldBalance(year, to, reference, a, asOf);
    }
    OneSwept(s, Revenue, asOf, SALES, |SHOP|);
    OneSwept(s, Expense, asOf, RENT, |SHOP|);
  }

  /** A sweep that finds at most one account. */
  lemma {:induction false} OneSwept(s: State, kind: AccountType, asOf: Date, only: AccountId, n: nat)
    requires n <= |s.accounts| && forall a :: 0 <= a < n && Sweeps(s, kind, asOf, None, a) ==> a == only
    ensures SweptBelow(s, kind, asOf, None, n)
         == if only < n && Sweeps(s, kind, asOf, None,
                                  only) then [Swept(only, Balance(s.entries, only, asOf), s.accounts[only].active)]
                                  else []
  {
    hide Balance, Sweeps;
    if n != 0 {
      OneSwept(s, kind, asOf, only, n - 1);
    }
  }

  /** The rules a close checks all let the sale through. */
  lemma SoldCanClose(year: int, to: AccountId, reference: Option<Key>)
    requires to == CASH || to == RENT
    ensures var s, window := Sold(year, to, reference), FiscalWindow(1, year);
            CheckCanClose(s, window, AccountsWithBalances(s, Revenue, window.end, None),
                          AccountsWithBalances(s, Expense, window.end, None)).None?
  {
    var s, window := Sold(year, to, reference), FiscalWindow(1, year);
    FiscalYearsTile(1, year, year, 0);
    SoldSweeps(year, to, reference, window.end);
    SoldSweeps(year, to, reference, window.start - 1);
    SaleAdds(year, to, reference);
    hide FiscalWindow, AccountsWithBalances, Sale;
    DebitsEqualCredits(s.entries, window.end);
    assert [Swept(SALES, -100, true)][1..] == [];
  }

  lemma SoldSwept(books: Books, year: int, to: AccountId, reference: Option<Key>)
    requires books.startMonth == 1 && (to == CASH || to == RENT)
    ensures var s := Sold(year, to, reference);
            var lines := ClosingPost(s, books, year, RESULT, false).lines;
            && YearWindow(s, books, year) == FiscalWindow(1, year)
            && lines == [Line(SALES, 100, books.currency)]
                        + (if to == RENT then [Line(RENT, -100, books.currency)]
                           else [Line(RESULT, -100, books.currency)])
            && NetResult(s, books, year, false) == if to == RENT then 0 else 100
  {
    var s, window := Sold(year, to, reference), FiscalWindow(1, year);
    SoldSweeps(year, to, reference, window.end);
    hide FiscalWindow, AccountsWithBalances;
    var sales, rent := Swept(SALES, -100, true), Swept(RENT, 100, true);
    OneClosingLine(sales, books.currency);
    OneClosingLine(rent, books.currency);
    ClosingLinesConcat([sales], [rent], books.currency);
    assert SweptBy(s, books, year, false) == [sales] + if to == RENT then [rent] else [];
    SumAppend([], sales, (x: Swept) => x.balance);
    SumAppend([sales], rent, (x: Swept) => x.balance);
    assert [] + [sales] == [sales];
  }

  lemma PostOnShop(s: State, post: Post)
    requires s.accounts == SHOP && s.years == map[] && forall l :: l in post.lines ==> l.account < |SHOP|
    requires post.reference.Some? ==> Holder(s.entries, Keyed(post.reference.value)).None?
    ensures BuildPost(s, post, true) == Append([Posting(post)])
  {
    assert Usable(s, AccountsOf(post.lines)) by {
      forall a | a in AccountsOf(post.lines) ensures a < |s.accounts| && s.accounts[a].active {
        var i :| 0 <= i < |post.lines| && AccountsOf(post.lines)[i] == a;
        assert post.lines[i] in post.lines;
      }
    }
    assert !FencedOn(s, post.date);
  }

  lemma SoldHolds(year: int, to: AccountId, reference: Option<Key>, key: Key)
    ensures Holder(Sold(year, to, reference).entries, Keyed(key)) == if reference == Some(key) then Some(0) else None
  {
    hide FiscalWindow;
    var s := Sold(year, to, reference);
    assert s.entries[..0] == [];
  }

  /** The year closes to the result account, whatever reference the sale carries but the close's own. */
  lemma SoldCloses(books: Books, year: int, to: AccountId, reference: Option<Key>)
    requires books.startMonth == 1 && (to == CASH || to == RENT) && reference != Some(CloseKey(year))
    ensures BuildClose(Sold(year, to, reference), books, year, ToAccount(RESULT), false).Append?
  {
    var s := Sold(year, to, reference);
    SoldCanClose(year, to, reference);
    SoldSwept(books, year, to, reference);
    SoldHolds(year, to, reference, CloseKey(year));
    PostOnShop(s, ClosingPost(s, books, year, RESULT, false));
    hide CheckCanClose, AccountsWithBalances, ClosingPost, NetResult, FiscalWindow, BuildPost, Holder;
  }

  /** A run that sells and then closes stands where the close leaves the sale's books. */
  lemma SoldAndClosed(books: Books, year: int, to: AccountId, reference: Option<Key>, target: Target)
    requires Proper(books) && (to == CASH || to == RENT)
    requires BuildClose(Sold(year, to, reference), books, year, target, false).Append?
    ensures var s := Sold(year, to, reference);
            var t := AfterClose(s, books, year, ClosePosts(s, books, year, target, false));
            && Run(EMPTY, books, Selling(year, to, reference) + [CloseBooks(year, target, false)]) == t
            && Step(s, books, CloseBooks(year, target, false)) == t && Inv(t, books)
  {
    hide *;
    var s, cmd := Sold(year, to, reference), CloseBooks(year, target, false);
    SoldIsReached(books, year, to, reference);
    CloseStep(s, books, year, target);
    RunAppend(EMPTY, books, Selling(year, to, reference), [cmd]);
    RunOne(s, books, cmd);
  }

  lemma CloseStep(s: State, books: Books, year: int, target: Target)
    requires Inv(s, books) && Proper(books) && BuildClose(s, books, year, target, false).Append?
    ensures var t := AfterClose(s, books, year, ClosePosts(s, books, year, target, false));
            Step(s, books, CloseBooks(year, target, false)) == t && Inv(t, books)
  {
    hide BuildClose, AfterClose, ClosePosts, InvBut, Record;
    CloseKeeps(s, books, year, target, false);
  }

  lemma ReopenStep(s: State, books: Books, year: int)
    requires Inv(s, books) && BuildReopen(s, year).Append?
    ensures Step(s, books, ReopenBooks(year)) == Reopened(s, year)
  {
    hide BuildReopen, Reopened, InvBut, Record;
    ReopenKeeps(s, books, year);
  }

  // ------------------------------------------------------------------ references a close will use

  /** A sale that carries the closing reference of the year before its own: its own year closes over it, and then
      reopening the earlier year, which was never closed, voids it, and revenue moves inside the closed year. */
  lemma {:induction false} SquattedReferenceMovesAClosedYear(year: int)
    ensures var cmds := Selling(year, CASH, Some(CloseKey(year - 1))) + [CloseBooks(year, ToAccount(RESULT), false)];
            var s := Run(EMPTY, PLAIN, cmds);
            var t := Step(s, PLAIN, ReopenBooks(year - 1));
            && year in s.years && s.years[year].closed && QuietYear(s, year)
            && year in t.years && t.years[year].closed && !QuietYear(t, year)
  {
    var key := Some(CloseKey(year - 1));
    var s, cmd := Sold(year, CASH, key), CloseBooks(year, ToAccount(RESULT), false);
    SoldCloses(PLAIN, year, CASH, key);
    SoldIsReached(PLAIN, year, CASH, key);
    SoldAndClosed(PLAIN, year, CASH, key, ToAccount(RESULT));
    var t := AfterClose(s, PLAIN, year, ClosePosts(s, PLAIN, year, ToAccount(RESULT), false));
    assert |t.entries| == 2 && t.entries[0] == s.entries[0] && t.entries[1].reference == Some(Keyed(CloseKey(year)));
    assert t.accounts == SHOP && t.years.Keys == {year} && t.years[year].closed;
    hide *;
    SoldIsQuiet(year, key);
    AllocationIsFree(t, year);
    SquatterIsVoided(year, t);
  }

  lemma AllocationIsFree(t: State, year: int)
    requires |t.entries| == 2 && t.entries[0].reference == Some(Keyed(CloseKey(year - 1)))
    requires t.entries[1].reference == Some(Keyed(CloseKey(year)))
    ensures Holder(t.entries, Keyed(AllocationKey(year - 1))).None?
  {
  }

  lemma SoldIsQuiet(year: int, reference: Option<Key>)
    requires reference != Some(CloseKey(year))
    ensures var s := Sold(year, CASH, reference);
            var t := AfterClose(s, PLAIN, year, ClosePosts(s, PLAIN, year, ToAccount(RESULT), false));
            year in t.years && QuietYear(t, year)
  {
    var s := Sold(year, CASH, reference);
    SoldCloses(PLAIN, year, CASH, reference);
    SoldIsReached(PLAIN, year, CASH, reference);
    hide BuildClose, ClosePosts, InvBut, FiscalWindow, Sale, Movement;
    forall a | IsIncome(s, a)
      ensures Movement(AfterClose(s, PLAIN, year, ClosePosts(s, PLAIN, year, ToAccount(RESULT), false)).entries, a,
                       FiscalWindow(1, year)) == 0
    {
      CloseZeroes(s, PLAIN, year, ToAccount(RESULT), false, a);
    }
  }

  lemma SquatterIsVoided(year: int, t: State)
    requires Inv(t, PLAIN) && year in t.years && t.years[year].closed && year - 1 !in t.years
    requires t.accounts == SHOP && |t.entries| == 2
             && t.entries[0] == Posted(Sale(year, CASH, Some(CloseKey(year - 1))))
    requires Holder(t.entries, Keyed(AllocationKey(year - 1))).None? && QuietYear(t, year)
    ensures var u := Step(t, PLAIN, ReopenBooks(year - 1));
            year in u.years && u.years[year].closed && !QuietYear(u, year)
  {
    assert YearOk(t, PLAIN, year) && UniqueReferences(t.entries) && Holds(t.entries[0], Keyed(CloseKey(year - 1)));
    hide FiscalWindow, InvBut, BuildReopen, UniqueReferences, Holder, Movement;
    HolderIsUnique(t.entries, Keyed(CloseKey(year - 1)), 0);
    HeldCanReopen(t, year - 1);
    ReopenStep(t, PLAIN, year - 1);
    ReopenMovesExactly(t, year - 1, SALES, t.years[year].window);
    SaleMoves(year, Some(CloseKey(year - 1)));
    hide Sale;
    assert IsIncome(t, SALES) && IsIncome(Reopened(t, year - 1), SALES);
  }

  lemma HeldCanReopen(t: State, year: int)
    requires Holder(t.entries, Keyed(CloseKey(year))).Some?
    ensures BuildReopen(t, year).Append?
  {
    hide Holder;
  }

  lemma SaleMoves(year: int, reference: Option<Key>)
    ensures EffectWithin(Posted(Sale(year, CASH, reference)), SALES, FiscalWindow(1, year)) == -100
  {
    FiscalYearsTile(1, year, year, 0);
    hide FiscalWindow;
    SaleAdds(year, CASH, reference);
  }

  /** A sale that carries the allocation's reference of its own year: closing and reopening the year voids it. */
  lemma {:induction false} HeldAllocationIsVoided(year: int)
    ensures var s := Run(EMPTY, PLAIN, Selling(year, CASH, Some(AllocationKey(year))));
            var t := Step(s, PLAIN, CloseBooks(year, ToAccount(RESULT), false));
            var u := Step(t, PLAIN, ReopenBooks(year));
            s.entries != [] && !s.entries[0].isVoid && |s.entries| <= |u.entries| && u.entries[0].isVoid
            && !Restores(s, u)
  {
    var key := Some(AllocationKey(year));
    var s := Sold(year, CASH, key);
    SoldIsReached(PLAIN, year, CASH, key);
    SoldCloses(PLAIN, year, CASH, key);
    CloseStep(s, PLAIN, year, ToAccount(RESULT));
    ReopenUndoesClose(s, PLAIN, year, ToAccount(RESULT), false);
    var t := AfterClose(s, PLAIN, year, ClosePosts(s, PLAIN, year, ToAccount(RESULT), false));
    ReopenStep(t, PLAIN, year);
    SoldHolds(year, CASH, key, AllocationKey(year));
    FirstIsVoided(s, year, t);
  }

  lemma FirstIsVoided(s: State, year: int, t: State)
    requires UniqueReferences(t.entries) && 1 <= |s.entries| <= |t.entries| && t.entries[0] == s.entries[0]
    requires Holds(s.entries[0], Keyed(AllocationKey(year)))
    ensures |t.entries| == |Reopened(t, year).entries| && Reopened(t, year).entries[0].isVoid
  {
    HolderIsUnique(t.entries, Keyed(AllocationKey(year)), 0);
  }

  // ------------------------------------------------------------------ capital on a revenue account

  lemma MislinkedShares(year: int)
    ensures Proper(MISLINKED)
    ensures PartnerShares(MISLINKED, year, 100) == Done([Share(SALES, 100)])
  {
    var links := MISLINKED.links;
    assert links[..0] == [] && LinkedAccounts(links, 0) == [SALES];
    assert [0][..0] == [] && CapitalTargets(MISLINKED, [0]) == Done([SALES]);
    SumAppend([], 100, (c: Cents) => c);
    assert [] + [100] == [100];
    var shares := seq(1, i requires 0 <= i < 1 => Share([SALES][i], if i < 1 then [100][i] else 0));
    assert shares == [Share(SALES, 100)];
  }

  lemma ClosesToPartners(s: State, books: Books, year: int, account: AccountId, net: Cents, shares: seq<Share>)
    requires account < |s.accounts| && s.accounts[account].kind == Equity
    requires Holder(s.entries, Keyed(CloseKey(year))).None?
    requires var window := YearWindow(s, books, year);
             CheckCanClose(s, window, AccountsWithBalances(s, Revenue, window.end, None),
                           AccountsWithBalances(s, Expense, window.end, None)).None?
    requires NetResult(s, books, year, false) == net && PartnerShares(books, year, net) == Done(shares)
    requires BuildPost(s, ClosingPost(s, books, year, account, false), true).Append?
    requires BuildPost(s, AllocationPost(books, year, YearWindow(s, books, year).end, account, net, shares),
                       true).Append?
    ensures BuildClose(s, books, year, ToPartners(account), false).Append?
  {
    hide CheckCanClose, AccountsWithBalances, ClosingPost, AllocationPost, NetResult, YearWindow, BuildPost, Holder,
         PartnerShares;
  }

  lemma MislinkedCloses(year: int)
    ensures BuildClose(Sold(year, CASH, None), MISLINKED, year, ToPartners(RESULT), false).Append?
  {
    var s, books := Sold(year, CASH, None), MISLINKED;
    var shares := [Share(SALES, 100)];
    var allocation := AllocationPost(books, year, FiscalWindow(1, year).end, RESULT, 100, shares);
    assert shares[..0] == [] && ShareLines([], 0) == [];
    assert ShareLines(shares, 0) == [] + [Line(SALES, -100, 0)];
    assert allocation.lines == [Line(RESULT, 100, 0)] + [Line(SALES, -100, 0)];
    assert s.accounts == SHOP && s.accounts[RESULT].kind == Equity && s.years == map[];
    SoldHolds(year, CASH, None, CloseKey(year));
    SoldHolds(year, CASH, None, AllocationKey(year));
    hide *;
    SoldCanClose(year, CASH, None);
    SoldSwept(books, year, CASH, None);
    MislinkedShares(year);
    AllocationNamed(books, year, FiscalWindow(1, year).end, RESULT, 100, shares);
    ClosingNamed(s, books, year, RESULT);
    PostOnShop(s, ClosingPost(s, books, year, RESULT, false));
    PostOnShop(s, allocation);
    ClosesToPartners(s, books, year, RESULT, 100, shares);
  }

  lemma AllocationNamed(books: Books, year: int, date: Date, account: AccountId, net: Cents, shares: seq<Share>)
    ensures AllocationPost(books, year, date, account, net, shares).reference == Some(AllocationKey(year))
  {
  }

  lemma ClosingNamed(s: State, books: Books, year: int, account: AccountId)
    ensures ClosingPost(s, books, year, account, false).reference == Some(CloseKey(year))
  {
  }

  lemma MislinkedIsGiven(year: int)
    ensures Given(Sold(year, CASH, None), MISLINKED, year, ToPartners(RESULT), SALES) == 100
  {
    SoldSwept(MISLINKED, year, CASH, None);
    MislinkedShares(year);
    hide PartnerShares, NetResult, Sold, ClosingPost, FiscalWindow, YearWindow;
    var shares := [Share(SALES, 100)];
    SumAppend([], shares[0], (x: Share) => if x.account == SALES then x.cents else 0);
    assert [] + shares == shares;
  }

  /** A partner's capital account that is the revenue account: every command is ordinary, and still the closed
      year is not quiet, for the allocation puts the result back on it. */
  lemma {:induction false} CapitalOnRevenueMovesAClosedYear(year: int)
    ensures var cmds := Selling(year, CASH, None) + [CloseBooks(year, ToPartners(RESULT), false)];
            var s := Run(EMPTY, MISLINKED, cmds);
            && (forall cmd :: cmd in cmds ==> Lawful(MISLINKED, cmd) && Ordinary(cmd))
            && year in s.years && s.years[year].closed && !QuietYear(s, year)
  {
    MislinkedIsOrdinary(year);
    var s := Sold(year, CASH, None);
    var t := AfterClose(s, MISLINKED, year, ClosePosts(s, MISLINKED, year, ToPartners(RESULT), false));
    ClosedAfter(s, MISLINKED, year, ClosePosts(s, MISLINKED, year, ToPartners(RESULT), false));
    SoldSwept(MISLINKED, year, CASH, None);
    MislinkedIsIncome(year, t);
    hide *;
    MislinkedShares(year);
    MislinkedCloses(year);
    SoldAndClosed(MISLINKED, year, CASH, None, ToPartners(RESULT));
    MislinkedMoves(year);
  }

  lemma MislinkedIsOrdinary(year: int)
    ensures forall cmd :: cmd in Selling(year, CASH, None) + [CloseBooks(year, ToPartners(RESULT), false)] ==>
              Lawful(MISLINKED, cmd) && Ordinary(cmd)
  {
    hide Creating, FiscalWindow, Sale;
    CreatingIsOrdinary(SHOP);
    assert Sale(year, CASH, None).reference == None by { SaleIsUnnamed(year); }
  }

  lemma SaleIsUnnamed(year: int)
    ensures Sale(year, CASH, None).reference == None
  {
  }

  lemma {:induction false} CreatingIsOrdinary(accounts: seq<Account>)
    ensures forall cmd :: cmd in Creating(accounts) ==> cmd.CreateAccount?
  {
    if accounts != [] {
      CreatingIsOrdinary(accounts[..|accounts| - 1]);
    }
  }

  lemma MislinkedIsIncome(year: int, t: State)
    requires t.accounts == SHOP && year in t.years && t.years[year].window == FiscalWindow(1, year)
    ensures QuietYear(t, year) ==> Movement(t.entries, SALES, FiscalWindow(1, year)) == 0
  {
    hide FiscalWindow, Movement;
    assert IsIncome(t, SALES);
  }

  lemma MislinkedMoves(year: int)
    ensures var s := Sold(year, CASH, None);
            var t := AfterClose(s, MISLINKED, year, ClosePosts(s, MISLINKED, year, ToPartners(RESULT), false));
            Movement(t.entries, SALES, FiscalWindow(1, year)) != 0
  {
    var s, books, target := Sold(year, CASH, None), MISLINKED, ToPartners(RESULT);
    var window := FiscalWindow(1, year);
    assert IsIncome(s, SALES) && YearWindow(s, books, year) == window;
    FiscalYearsTile(1, year, year, 0);
    hide *;
    MislinkedShares(year);
    SoldIsReached(books, year, CASH, None);
    MislinkedCloses(year);
    MislinkedIsGiven(year);
    CloseMoves(s, books, year, target, SALES, window.start - 1);
    CloseToPartnersSweepsIncome(s, books, year, RESULT, SALES);
    SoldBalance(year, CASH, None, SALES, window.start - 1);
    BalanceSplits(AfterClose(s, books, year, ClosePosts(s, books, year, target, false)).entries, SALES, window);
  }

  // ------------------------------------------------------------------ a year that comes to nothing

  /** A sale that pays the rent: the year closes on nothing, and dividing the result finds no year account. */
  lemma {:induction false} YearThatComesToNothing(year: int)
    ensures var s := Run(EMPTY, PLAIN, Selling(year, RENT, None) + [CloseBooks(year, ToAccount(RESULT), false)]);
            year in s.years && s.years[year].closed && Build(s, PLAIN, AllocateYear(year)) == Reject(NoYearAccount)
  {
    var s := Sold(year, RENT, None);
    SoldIsReached(PLAIN, year, RENT, None);
    SoldCloses(PLAIN, year, RENT, None);
    SoldAndClosed(PLAIN, year, RENT, None, ToAccount(RESULT));
    SoldSwept(PLAIN, year, RENT, None);
    SoldHolds(year, RENT, None, AllocationKey(year));
    ClosedAfter(s, PLAIN, year, ClosePosts(s, PLAIN, year, ToAccount(RESULT), false));
    hide *;
    ZeroResultReportsNoYearAccount(s, PLAIN, year, RESULT);
    AllocateIs(Run(EMPTY, PLAIN, Selling(year, RENT, None) + [CloseBooks(year, ToAccount(RESULT), false)]), PLAIN,
               year);
  }

  lemma ClosedAfter(s: State, books: Books, year: int, posts: seq<Entry>)
    ensures var t := AfterClose(s, books, year, posts);
            && t.accounts == s.accounts && year in t.years && t.years[year].closed
               && t.years[year].window == YearWindow(s, books, year)
  {
  }

  lemma AllocateIs(s: State, books: Books, year: int)
    ensures Build(s, books, AllocateYear(year)) == BuildAllocate(s, books, year)
  {
    hide BuildAllocate;
  }

  // ------------------------------------------------------------------ bills on their own account

  function RentDue(debit: AccountId): BillOrder {
    BillOrder(100, 0, debit, PAYABLE, 0, None)
  }

  lemma BillIsAccepted(debit: AccountId)
    requires debit < |SHOP|
    ensures BuildReceiveBill(State(SHOP, [], map[], []), RentDue(debit)).Append?
  {
    var s := State(SHOP, [], map[], []);
    assert Usable(s, [debit, PAYABLE]);
    assert !FencedOn(s, 0);
  }

  /** A bill whose debit account is the payable account: received, and the account no longer holds what is owed. */
  lemma {:induction false} BillOnItsOwnAccount()
    ensures var s := Run(EMPTY, PLAIN, Creating(SHOP));
            && Agrees(s, PAYABLE) && Build(s, PLAIN, ReceiveBill(RentDue(PAYABLE))).Append?
            && !Agrees(Step(s, PLAIN, ReceiveBill(RentDue(PAYABLE))), PAYABLE)
  {
    var s := State(SHOP, [], map[], []);
    ShopIsOpen(PLAIN);
    NothingIsOwed();
    BillIsAccepted(PAYABLE);
    ReceiveKeepsAgreement(s, PLAIN, RentDue(PAYABLE), PAYABLE);
  }

  lemma NothingIsOwed()
    ensures Agrees(State(SHOP, [], map[], []), PAYABLE)
  {
  }

  /** The shop with the rent due. */
  function Due(): seq<Command> {
    Creating(SHOP) + [ReceiveBill(RentDue(RENT))]
  }

  lemma RentIsReceived()
    ensures var t := State(SHOP, [], map[], []);
            var s := Step(t, PLAIN, ReceiveBill(RentDue(RENT)));
            Inv(s, PLAIN) && s.accounts == SHOP && s.years == map[] && s.bills == [Bill(100, 0, Open, 0)]
  {
    var t := State(SHOP, [], map[], []);
    assert RentDue(RENT).amount == 100 && [] + [Bill(100, 0, Open, 0)] == [Bill(100, 0, Open, 0)];
    hide InvBut, BuildReceiveBill, Step, RentDue, ReceivedEntry, Creatable, Run;
    ShopIsOpen(PLAIN);
    BillIsAccepted(RENT);
    ReceivedBooks(t, PLAIN, RentDue(RENT));
    StepKeepsInvariant(t, PLAIN, ReceiveBill(RentDue(RENT)));
  }

  lemma RentIsDue() returns (s: State)
    ensures s == Run(EMPTY, PLAIN, Due()) && Inv(s, PLAIN) && Agrees(s, PAYABLE)
    ensures s.accounts == SHOP && s.years == map[] && s.bills == [Bill(100, 0, Open, 0)]
  {
    var t := State(SHOP, [], map[], []);
    ShopIsOpen(PLAIN);
    NothingIsOwed();
    BillIsAccepted(RENT);
    RentIsReceived();
    s := Step(t, PLAIN, ReceiveBill(RentDue(RENT)));
    hide InvBut, BuildReceiveBill, Step, Creating, Run, Agrees;
    RunAppend(EMPTY, PLAIN, Creating(SHOP), [ReceiveBill(RentDue(RENT))]);
    RunOne(t, PLAIN, ReceiveBill(RentDue(RENT)));
    ReceiveKeepsAgreement(t, PLAIN, RentDue(RENT), PAYABLE);
  }

  lemma PaymentIsAccepted(s: State, applied: Cents, from: AccountId)
    requires s.accounts == SHOP && s.years == map[] && s.bills == [Bill(100, 0, Open, 0)] && applied <= 100
             && from < |SHOP|
    ensures Build(s, PLAIN, PayBill(0, 0, applied, from, PAYABLE)).Append?
  {
    assert Usable(s, [PAYABLE, from]);
    assert !FencedOn(s, 0);
  }

  /** A payment made from the payable account: the bill is paid, and the account still holds it. */
  lemma {:induction false} PaymentFromItsOwnAccount()
    ensures var s := Run(EMPTY, PLAIN, Due());
            var cmd := PayBill(0, 0, 100, PAYABLE, PAYABLE);
            Agrees(s, PAYABLE) && Build(s, PLAIN, cmd).Append? && !Agrees(Step(s, PLAIN, cmd), PAYABLE)
  {
    var s := RentIsDue();
    PaymentIsAccepted(s, 100, PAYABLE);
    hide InvBut, Agrees, BuildPayBill;
    PaymentKeepsAgreement(s, PLAIN, PayBill(0, 0, 100, PAYABLE, PAYABLE), PAYABLE);
  }

  /** A payment of nothing passes the command's check, and the store refuses it. */
  lemma {:induction false} PaymentOfNothing()
    ensures var s := Run(EMPTY, PLAIN, Due());
            var verdict := Build(s, PLAIN, PayBill(0, 0, 0, CASH, PAYABLE));
            verdict.Append? && Record(s, verdict.events).None?
  {
    var s := RentIsDue();
    PaymentIsAccepted(s, 0, CASH);
    hide InvBut, Agrees, BuildPayBill, Record;
    PayBillKeeps(s, PLAIN, PayBill(0, 0, 0, CASH, PAYABLE));
  }
}
