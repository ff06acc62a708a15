/** The year-end close: what it does to every balance, the two routes to the partners, and its
    inverse. */
module ClosingTheYear {
  import opened Options
  import opened Sums
  import opened Calendar
  import opened Ledger
  import opened Commands
  import opened Sweeping
  import opened Invariants

  // ------------------------------------------------------------------ the trial balance

  lemma {:induction false} TotalIsDebitsLessCredits(lines: seq<Line>)
    ensures Total(lines) == Sum(lines, Debit) - Sum(lines, Credit)
  {
    if lines != [] {
      TotalIsDebitsLessCredits(lines[..|lines| - 1]);
    }
  }

  /** In sound books debits equal credits on every day, so no close is refused as unbalanced. */
  lemma {:induction false} DebitsEqualCredits(entries: seq<Entry>, asOf: Date)
    requires forall e :: e in entries ==> Total(e.lines) == 0
    ensures Debits(entries, asOf) == Credits(entries, asOf)
  {
    if entries != [] {
      DebitsEqualCredits(entries[..|entries| - 1], asOf);
      TotalIsDebitsLessCredits(entries[|entries| - 1].lines);
    }
  }

  lemma UnbalancedIsUnreachable(s: State, books: Books, cmd: Command)
    requires Inv(s, books) && cmd.CloseBooks?
    ensures Build(s, books, cmd).Reject? ==> !Build(s, books, cmd).error.Unbalanced?
  {
    hide AccountsWithBalances, PartnerShares, ClosingPost, AllocationPost, FirstInactive, YearWindow, NetResult,
         Debits, Credits, Holder,
         FencedOn, InvBut;
    EntriesSumToZero(s, books);
    DebitsEqualCredits(s.entries, YearWindow(s, books, cmd.year).end);
    RefusalsOfShares(books, cmd.year, NetResult(s, books, cmd.year, cmd.includeDraws));
  }

  lemma EntriesSumToZero(s: State, books: Books)
    requires Inv(s, books)
    ensures forall e :: e in s.entries ==> Total(e.lines) == 0
  {
    forall e | e in s.entries ensures Total(e.lines) == 0 {
      var i :| 0 <= i < |s.entries| && s.entries[i] == e;
      assert EntryOk(s.entries[i], i, |s.accounts|);
    }
  }

  lemma RefusalsOfShares(books: Books, year: int, net: Cents)
    ensures PartnerShares(books, year, net).Refused? ==> !PartnerShares(books, year, net).error.Unbalanced?
  {
    TargetRefusals(books, books.partners(year));
  }

  lemma {:induction false} TargetRefusals(books: Books, partners: seq<nat>)
    ensures CapitalTargets(books, partners).Refused? ==> !CapitalTargets(books, partners).error.Unbalanced?
  {
    if partners != [] {
      TargetRefusals(books, partners[..|partners| - 1]);
    }
  }

  // ------------------------------------------------------------------ what a close does

  /** What one account is given of an allocated result. */
  function Given(s: State, books: Books, year: int, target: Target, a: AccountId): Cents {
    var net := NetResult(s, books, year, false);
    var shares := PartnerShares(books, year, net);
    if target.ToPartners? && net != 0 && shares.Done? then ShareOf(shares.value, a) else 0
  }

  predicate IsIncome(s: State, a: AccountId) {
    a < |s.accounts| && Income(s.accounts[a].kind)
  }

  /** A close without draws, account by account and day by day: nothing before the year end; from
      then on income accounts lose what they held, the year account takes minus the result unless it
      is passed on, and each capital account takes minus its share. */
  lemma CloseMoves(s: State, books: Books, year: int, target: Target, a: AccountId, asOf: Date)
    requires Inv(s, books) && Proper(books) && BuildClose(s, books, year, target, false).Append?
    ensures var end := YearWindow(s, books, year).end;
            var net := NetResult(s, books, year, false);
            Balance(AfterClose(s, books, year, ClosePosts(s, books, year, target, false)).entries, a, asOf)
              == Balance(s.entries, a, asOf)
               + (if asOf < end then 0
                  else (if IsIncome(s, a) then -Balance(s.entries, a, end) else 0)
                       + (if a == target.account && target.ToAccount? then -net else 0)
                       - Given(s, books, year, target, a))
  {
    hide *;
    var posts := ClosePosts(s, books, year, target, false);
    AfterCloseEntries(s, books, year, posts);
    CloseTarget(s, books, year, target, false);
    ClosingEffect(s, books, year, target.account, false, a);
    FirstPost(s, books, year, target, a, asOf);
    SecondPostMoves(s, books, year, target, a, asOf);
    BalancePosted(s.entries, posts[0], a, asOf);
    if |posts| == 2 {
      BalancePosted(s.entries + [posts[0]], posts[1], a, asOf);
      assert s.entries + posts == s.entries + [posts[0]] + [posts[1]];
    } else {
      assert posts == [posts[0]];
    }
  }

  lemma AfterCloseEntries(s: State, books: Books, year: int, posts: seq<Entry>)
    ensures AfterClose(s, books, year, posts).entries == s.entries + posts
  {
    hide YearWindow;
  }

  lemma CloseTarget(s: State, books: Books, year: int, target: Target, includeDraws: bool)
    requires BuildClose(s, books, year, target, includeDraws).Append?
    ensures target.account < |s.accounts| && s.accounts[target.account].kind == Equity
  {
    hide CheckCanClose, AccountsWithBalances, ClosingPost, PartnerShares, NetResult, AllocationPost, YearWindow;
  }

  /** The closing entry, which stands alone unless there is a result to pass on. */
  lemma FirstPost(s: State, books: Books, year: int, target: Target, a: AccountId, asOf: Date)
    ensures var posts := ClosePosts(s, books, year, target, false);
            var closing := ClosingPost(s, books, year, target.account, false);
            && 1 <= |posts| <= 2 && closing.date == YearWindow(s, books, year).end
            && Effect(posts[0], a, asOf) == if closing.date <= asOf then On(closing.lines, a) else 0
    ensures IsIncome(s, a) <==> a < |s.accounts| && Income(s.accounts[a].kind)
  {
    hide SweptBy, ClosingLines, YearWindow, On, NetResult, PartnerShares, AllocationPost;
  }

  /** What is left of the result on the year account, and what the allocation does where there is one. */
  lemma SecondPostMoves(s: State, books: Books, year: int, target: Target, a: AccountId, asOf: Date)
    requires Proper(books) && BuildClose(s, books, year, target, false).Append?
    ensures var posts, net := ClosePosts(s, books, year, target, false), NetResult(s, books, year, false);
            && (|posts| == 2 ==>
                  Effect(posts[1], a, asOf)
                  == if YearWindow(s, books, year).end <= asOf
                     then (if a == target.account then net else 0) - Given(s, books, year, target, a) else 0)
            && (|posts| == 2 ==> target.ToPartners?)
            && (|posts| != 2 ==> Given(s, books, year, target, a) == 0 && (target.ToAccount? || net == 0))
  {
    CloseShape(s, books, year, target, false);
    hide BuildClose, ClosingPost, YearWindow, NetResult, PartnerShares, Posting, OpeningEvents, On, ShareOf;
    var net := NetResult(s, books, year, false);
    if target.ToPartners? && net != 0 {
      var shares := PartnerShares(books, year, net).value;
      SharesAddBack(books, year, net);
      AllocationIsSound(books, year, YearWindow(s, books, year).end, target.account, net, shares);
    }
  }

  /** What a close posts is live, marked as closing, dated the year end and in the books' own currency, and carries the
      year's own references: the close's, and after it the allocation's. */
  lemma ClosePostsAre(s: State, books: Books, year: int, target: Target, includeDraws: bool)
    requires BuildClose(s, books, year, target, includeDraws).Append?
    ensures var posts := ClosePosts(s, books, year, target, includeDraws);
            && 1 <= |posts| <= 2 && posts[0].reference == Some(Keyed(CloseKey(year)))
            && (|posts| == 2 ==> posts[1].reference == Some(Keyed(AllocationKey(year))))
            && forall e :: e in posts ==>
                 && !e.isVoid && e.source == Some(Closing) && e.date == YearWindow(s, books, year).end
                 && forall l :: l in e.lines ==> l.currency == books.currency
  {
    CloseShape(s, books, year, target, includeDraws);
    var net := NetResult(s, books, year, includeDraws);
    ClosingPostIs(s, books, year, target.account, includeDraws);
    hide BuildClose, ClosingPost, AllocationPost, NetResult, PartnerShares, YearWindow, OpeningEvents, Posting;
    if target.ToPartners? && net != 0 {
      AllocationIs(books, year, YearWindow(s, books, year).end, target.account, net,
                   PartnerShares(books, year, net).value);
    }
  }

  lemma ClosingPostIs(s: State, books: Books, year: int, account: AccountId, includeDraws: bool)
    ensures var post := ClosingPost(s, books, year, account, includeDraws);
            && post.date == YearWindow(s, books, year).end && post.source == Some(Closing)
            && post.reference == Some(CloseKey(year)) && forall l :: l in post.lines ==> l.currency == books.currency
  {
    ClosingLinesTotal(SweptBy(s, books, year, includeDraws), books.currency);
    hide SweptBy, ClosingLines, YearWindow, SweepTotal;
  }

  lemma AllocationIs(books: Books, year: int, date: Date, account: AccountId, net: Cents, shares: seq<Share>)
    ensures var post := AllocationPost(books, year, date, account, net, shares);
            && post.date == date && post.source == Some(Closing)
            && post.reference == Some(AllocationKey(year)) && forall l :: l in post.lines ==>
                    l.currency == books.currency
  {
    ShareLinesAre(shares, books.currency);
    hide ShareLines;
  }

  /** A close to the partners takes from a capital account that is one partner's alone that partner's own part of the
      split, on every day from the year end on. */
  lemma PartnerTakesOwnShare(s: State, books: Books, year: int, account: AccountId, i: nat, j: nat, asOf: Date)
    requires Inv(s, books) && Proper(books) && BuildClose(s, books, year, ToPartners(account), false).Append?
    requires NetResult(s, books, year, false) != 0 && i < |books.partners(year)|
    requires OnlyCapital(books.links, books.partners(year)[i], j) && !IsIncome(s, books.links[j].account)
    requires forall h, k :: 0 <= h < |books.partners(year)| && h != i
                            && OnlyCapital(books.links, books.partners(year)[h], k) ==>
               books.links[k].account != books.links[j].account
    ensures var a := books.links[j].account;
            var t := AfterClose(s, books, year, ClosePosts(s, books, year, ToPartners(account), false));
            Balance(t.entries, a, asOf)
            == Balance(s.entries, a, asOf)
               - if asOf < YearWindow(s, books, year).end then 0
                 else books.split(year, NetResult(s, books, year, false))[i]
  {
    var a := books.links[j].account;
    var net := NetResult(s, books, year, false);
    CloseMoves(s, books, year, ToPartners(account), a, asOf);
    ClosedToPartnersDivides(s, books, year, account);
    hide BuildClose, NetResult, PartnerShares, InvBut, YearWindow, Balance, ClosePosts, AfterClose;
    OwnShare(books, year, net, i, j);
  }

  lemma ClosedToPartnersDivides(s: State, books: Books, year: int, account: AccountId)
    requires BuildClose(s, books, year, ToPartners(account), false).Append?
    ensures PartnerShares(books, year, NetResult(s, books, year, false)).Done?
  {
    hide CheckCanClose, AccountsWithBalances, ClosingPost, AllocationPost, NetResult, PartnerShares, Holder, YearWindow;
  }

  lemma OwnShare(books: Books, year: int, net: Cents, i: nat, j: nat)
    requires Proper(books) && PartnerShares(books, year, net).Done? && i < |books.partners(year)|
    requires OnlyCapital(books.links, books.partners(year)[i], j)
    requires forall h, k :: 0 <= h < |books.partners(year)| && h != i
                            && OnlyCapital(books.links, books.partners(year)[h], k) ==>
               books.links[k].account != books.links[j].account
    ensures ShareOf(PartnerShares(books, year, net).value, books.links[j].account) == books.split(year, net)[i]
  {
    var shares, a := PartnerShares(books, year, net).value, books.links[j].account;
    SharesAre(books, year, net);
    hide PartnerShares, OnlyCapital;
    forall h | 0 <= h < |shares| && h != i ensures shares[h].account != a {
      assert books.partners(year)[h] in books.partners(year);
      assert HasOneCapital(books.links, books.partners(year)[h]);
      var k :| OnlyCapital(books.links, books.partners(year)[h], k);
    }
    SumSingle(shares, i, (x: Share) => if x.account == a then x.cents else 0);
  }

  /** A close into an account leaves revenue and expense at zero on the year end, moves the year
      account by minus the net result, and touches nothing else on any day. */
  lemma CloseSweepsIncome(s: State, books: Books, year: int, account: AccountId)
    requires Inv(s, books) && Proper(books) && BuildClose(s, books, year, ToAccount(account), false).Append?
    ensures var t := AfterClose(s, books, year, ClosePosts(s, books, year, ToAccount(account), false));
            var end := YearWindow(s, books, year).end;
            && (forall a :: IsIncome(s, a) ==> Balance(t.entries, a, end) == 0)
            && (forall asOf :: end <= asOf ==>
                  Balance(t.entries, account, asOf)
                  == Balance(s.entries, account, asOf) - NetResult(s, books, year, false))
            && (forall a, asOf :: (!IsIncome(s, a) && a != account) || asOf < end ==>
                                    Balance(t.entries, a, asOf) == Balance(s.entries, a, asOf))
  {
    forall a, asOf { CloseMoves(s, books, year, ToAccount(account), a, asOf); }
  }

  /** A close to the partners leaves an income account at minus whatever of the result is given to
      it: zero exactly when its shares cancel, and always when it is nobody's capital account. */
  lemma CloseToPartnersSweepsIncome(s: State, books: Books, year: int, account: AccountId, a: AccountId)
    requires Inv(s, books) && Proper(books) && BuildClose(s, books, year, ToPartners(account), false).Append?
    requires IsIncome(s, a)
    ensures var t := AfterClose(s, books, year, ClosePosts(s, books, year, ToPartners(account), false));
            var end := YearWindow(s, books, year).end;
            && (Balance(t.entries, a, end) == 0 <==> Given(s, books, year, ToPartners(account), a) == 0)
            && (!IsLinked(books, a) ==> Balance(t.entries, a, end) == 0)
  {
    CloseMoves(s, books, year, ToPartners(account), a, YearWindow(s, books, year).end);
    var net := NetResult(s, books, year, false);
    var shares := PartnerShares(books, year, net);
    if shares.Done? && !IsLinked(books, a) {
      SharesAddBack(books, year, net);
      SumZero(shares.value, (x: Share) => if x.account == a then x.cents else 0);
    }
  }

  // ------------------------------------------------------------------ whose result it is

  function KindBalance(s: State, kind: AccountType, asOf: Date, n: nat): Cents
    requires n <= |s.accounts|
  {
    if n == 0 then 0
    else KindBalance(s, kind, asOf, n - 1) + if s.accounts[n - 1].kind == kind then Balance(s.entries, n - 1, asOf)
         else 0
  }

  /** What the accounts of a kind did inside a window. */
  function KindMovement(s: State, kind: AccountType, window: Window, n: nat): Cents
    requires n <= |s.accounts|
  {
    if n == 0 then 0
    else KindMovement(s, kind, window, n - 1) + if s.accounts[n - 1].kind
         == kind then Movement(s.entries, n - 1, window) else 0
  }

  lemma {:induction false} SweepIsKindBalance(s: State, kind: AccountType, asOf: Date, n: nat)
    requires n <= |s.accounts|
    ensures SweepTotal(SweptBelow(s, kind, asOf, None, n)) == KindBalance(s, kind, asOf, n)
  {
    if n != 0 {
      SweepIsKindBalance(s, kind, asOf, n - 1);
      SumAppend(SweptBelow(s, kind, asOf, None, n - 1),
                Swept(n - 1, Balance(s.entries, n - 1, asOf), s.accounts[n - 1].active),
                (x: Swept) => x.balance);
    }
  }

  /** With the opening balances clear, what is held at the end is what the window did. */
  lemma {:induction false} ClearOpeningMeansOwnMovement(s: State, kind: AccountType, window: Window, n: nat)
    requires n <= |s.accounts| && window.start <= window.end + 1
    requires AccountsWithBalances(s, kind, window.start - 1, None) == []
    ensures KindBalance(s, kind, window.end, n) == KindMovement(s, kind, window, n)
  {
    if n != 0 {
      ClearOpeningMeansOwnMovement(s, kind, window, n - 1);
      SweptIsComplete(s, kind, window.start - 1, None, |s.accounts|, 0);
      BalanceSplits(s.entries, n - 1, window);
    }
  }

  /** A close finds no account of revenue or expense holding anything at the opening. */
  lemma NothingOpened(s: State, books: Books, year: int, target: Target, includeDraws: bool)
    requires BuildClose(s, books, year, target, includeDraws).Append?
    ensures var asOf := YearWindow(s, books, year).start - 1;
            AccountsWithBalances(s, Revenue, asOf, None) == [] && AccountsWithBalances(s, Expense, asOf, None) == []
  {
    hide AccountsWithBalances, YearWindow, Holder, PartnerShares, ClosingPost, AllocationPost, NetResult, Debits,
         Credits;
  }

  /** The result a close records is what happened inside this year, and nothing earlier. */
  lemma NetResultIsThisYears(s: State, books: Books, year: int, target: Target)
    requires Inv(s, books) && BuildClose(s, books, year, target, false).Append?
    ensures var window := YearWindow(s, books, year);
            NetResult(s, books, year, false)
              == -(KindMovement(s, Revenue, window, |s.accounts|) + KindMovement(s, Expense, window, |s.accounts|))
  {
    hide *;
    var window := YearWindow(s, books, year);
    ClosedWindow(s, books, year, target, false);
    NothingOpened(s, books, year, target, false);
    NetIsSwept(s, books, year);
    KindIsSwept(s, Revenue, window);
    KindIsSwept(s, Expense, window);
  }

  lemma ClosedWindow(s: State, books: Books, year: int, target: Target, includeDraws: bool)
    requires Inv(s, books) && BuildClose(s, books, year, target, includeDraws).Append?
    ensures YearWindow(s, books, year).start <= YearWindow(s, books, year).end
  {
    hide FiscalWindow, BuildClose;
    FiscalYearsTile(books.startMonth, year, year, 0);
  }

  lemma KindIsSwept(s: State, kind: AccountType, window: Window)
    requires window.start <= window.end + 1 && AccountsWithBalances(s, kind, window.start - 1, None) == []
    ensures SweepTotal(AccountsWithBalances(s, kind, window.end, None)) == KindMovement(s, kind, window, |s.accounts|)
  {
    hide SweptBelow, SweepTotal, KindMovement, KindBalance;
    ClearOpeningMeansOwnMovement(s, kind, window, |s.accounts|);
    SweepIsKindBalance(s, kind, window.end, |s.accounts|);
  }

  lemma NetIsSwept(s: State, books: Books, year: int)
    ensures var end := YearWindow(s, books, year).end;
            NetResult(s, books, year, false)
            == -(SweepTotal(AccountsWithBalances(s, Revenue, end, None))
                 + SweepTotal(AccountsWithBalances(s, Expense, end, None)))
  {
    hide AccountsWithBalances, YearWindow;
    var end := YearWindow(s, books, year).end;
    var revenue, expenses := AccountsWithBalances(s, Revenue, end, None), AccountsWithBalances(s, Expense, end, None);
    assert revenue + expenses + [] == revenue + expenses;
    SumConcat(revenue, expenses, (x: Swept) => x.balance);
  }

  // ------------------------------------------------------------------ two routes to the partners

  lemma {:induction false} IncomeLinesNameNoYearAccount(s: State, books: Books, lines: seq<Line>)
    requires forall l :: l in lines ==> IsIncome(s, l.account)
    ensures YearAccounts(s, books, lines) == []
    ensures ResultOf(s, lines) == Total(lines)
  {
    if lines != [] {
      IncomeLinesNameNoYearAccount(s, books, lines[..|lines| - 1]);
      assert IsIncome(s, lines[|lines| - 1].account);
    }
  }

  /** The posted closing entry alone tells the year account and the result. */
  lemma ClosingEntryTellsAll(s: State, books: Books, year: int, account: AccountId)
    requires account < |s.accounts| && s.accounts[account].kind == Equity
    ensures var lines := ClosingPost(s, books, year, account, false).lines;
            var net := NetResult(s, books, year, false);
            && ResultOf(s, lines) == net
            && YearAccounts(s, books, lines) == if net == 0 || IsLinked(books, account) then [] else [account]
  {
    hide SweptBy, SweepTotal, ClosingLines, YearWindow;
    var swept := SweptBy(s, books, year, false);
    var lines := ClosingLines(swept, books.currency);
    var total := SweepTotal(swept);
    SweptLinesAreIncome(s, books, year);
    IncomeLinesNameNoYearAccount(s, books, lines);
    var last := Line(account, total, books.currency);
    assert (lines + [last])[..|lines|] == lines;
    SumAppend(lines, last,
              (l: Line) => if l.account < |s.accounts| && Income(s.accounts[l.account].kind) then l.amount else 0);
    assert lines + [] == lines;
  }

  lemma SweptAreIncome(s: State, books: Books, year: int)
    ensures forall x :: x in SweptBy(s, books, year, false) ==> IsIncome(s, x.account)
  {
    var asOf := YearWindow(s, books, year).end;
    SweptIsComplete(s, Revenue, asOf, None, |s.accounts|, 0);
    SweptIsComplete(s, Expense, asOf, None, |s.accounts|, 0);
    hide SweptBelow, Balance, YearWindow, ClosingLines;
  }

  lemma SweptLinesAreIncome(s: State, books: Books, year: int)
    ensures var lines := ClosingLines(SweptBy(s, books, year, false), books.currency);
            && (forall l :: l in lines ==> IsIncome(s, l.account))
            && Total(lines) == NetResult(s, books, year, false)
  {
    var swept := SweptBy(s, books, year, false);
    var lines := ClosingLines(swept, books.currency);
    SweptAreIncome(s, books, year);
    ClosingLinesTotal(swept, books.currency);
    hide SweptBy, ClosingLines, IsIncome, SweepTotal, Total;
    forall l | l in lines ensures IsIncome(s, l.account) {
      var i :| 0 <= i < |lines| && lines[i] == l;
      assert swept[i] in swept;
    }
  }

  /** Closing to the partners goes through exactly when closing to the account would, and the division
      of the result could be posted beside it. */
  lemma DirectRoute(s: State, books: Books, year: int, account: AccountId)
    requires NetResult(s, books, year, false) != 0
    ensures var net := NetResult(s, books, year, false);
            var shares := PartnerShares(books, year, net);
            BuildClose(s, books, year, ToPartners(account), false).Append? <==>
              (BuildClose(s, books, year, ToAccount(account), false).Append? && shares.Done?
               && BuildPost(s, AllocationPost(books, year, YearWindow(s, books, year).end, account, net,
                                              shares.value), true).Append?)
  {
    hide NetResult, ClosingPost, PartnerShares, AllocationPost, BuildPost, CheckCanClose;
  }

  /** Closing to the partners is closing into the year account and then allocating: for a year that
      earned something, the two end in the very same books, and one goes through exactly when the
      other does, provided the year account is no partner's. When it is, the allocation is refused. */
  lemma {:induction false} TwoRoutesAgree(s: State, books: Books, year: int, account: AccountId)
    requires Inv(s, books) && Proper(books) && NetResult(s, books, year, false) != 0
    ensures var direct := BuildClose(s, books, year, ToPartners(account), false);
            var first := BuildClose(s, books, year, ToAccount(account), false);
            var t := AfterClose(s, books, year, ClosePosts(s, books, year, ToAccount(account), false));
            && (!IsLinked(books, account) ==>
                  (direct.Append? <==> first.Append? && BuildAllocate(t, books, year).Append?))
            && (!IsLinked(books, account) && direct.Append? ==>
                  Record(t, BuildAllocate(t, books, year).events) == Record(s, direct.events))
            && (IsLinked(books, account) && first.Append? && Holder(s.entries, Keyed(AllocationKey(year))).None? ==>
                  BuildAllocate(t, books, year) == Reject(NoYearAccount))
  {
    DirectRoute(s, books, year, account);
    hide BuildClose, BuildAllocate, NetResult, ClosePosts, AfterClose, PartnerShares, AllocationPost, BuildPost,
         YearWindow, InvBut, IsLinked;
    var first := BuildClose(s, books, year, ToAccount(account), false);
    if first.Append? {
      SecondRoute(s, books, year, account);
      var t := AfterClose(s, books, year, ClosePosts(s, books, year, ToAccount(account), false));
      if !IsLinked(books, account) && BuildClose(s, books, year, ToPartners(account), false).Append? {
        RoutesMeet(s, books, year, account, t);
      }
    }
  }

  /** Allocating just after a close decides what the direct route decides. */
  lemma {:induction false} SecondRoute(s: State, books: Books, year: int, account: AccountId)
    requires Inv(s, books) && Proper(books) && NetResult(s, books, year, false) != 0
    requires BuildClose(s, books, year, ToAccount(account), false).Append?
    ensures var net := NetResult(s, books, year, false);
            var shares := PartnerShares(books, year, net);
            var end := YearWindow(s, books, year).end;
            var t := AfterClose(s, books, year, ClosePosts(s, books, year, ToAccount(account), false));
            && (Holder(s.entries, Keyed(AllocationKey(year))).None? && IsLinked(books, account) ==>
                  BuildAllocate(t, books, year) == Reject(NoYearAccount))
            && (!IsLinked(books, account) ==>
                  (BuildAllocate(t, books, year).Append? <==>
                     shares.Done? && BuildPost(s, AllocationPost(books, year, end, account, net, shares.value),
                                               true).Append?)
                  && (BuildAllocate(t, books, year).Append? ==>
                        BuildAllocate(t, books, year).events
                        == [Posting(AllocationPost(books, year, end, account, net, shares.value))]))
  {
    hide BuildClose, NetResult, ClosingPost, AllocationPost, PartnerShares, YearAccounts, ResultOf, InvBut, BuildPost;
    var closing := ClosingPost(s, books, year, account, false);
    CloseFacts(s, books, year, ToAccount(account), false);
    CloseShape(s, books, year, ToAccount(account), false);
    AfterCloseHolders(s, books, year, account);
    var t := AfterClose(s, books, year, ClosePosts(s, books, year, ToAccount(account), false));
    ClosingEntryTellsAll(s, books, year, account);
    SameChart(s, t, books, closing.lines);
    assert t.entries[|s.entries|] == Posted(closing);
    var net := NetResult(s, books, year, false);
    var shares := PartnerShares(books, year, net);
    if shares.Done? {
      var post := AllocationPost(books, year, YearWindow(s, books, year).end, account, net, shares.value);
      AllocationPostIs(books, year, YearWindow(s, books, year).end, account, net, shares.value);
      SamePostVerdict(s, t, post);
    }
  }

  lemma AllocationPostIs(books: Books, year: int, date: Date, account: AccountId, net: Cents, shares: seq<Share>)
    ensures AllocationPost(books, year, date, account, net, shares).date == date
    ensures AllocationPost(books, year, date, account, net, shares).reference == Some(AllocationKey(year))
  {
  }

  /** What a successful close has checked. */
  lemma CloseFacts(s: State, books: Books, year: int, target: Target, includeDraws: bool)
    requires BuildClose(s, books, year, target, includeDraws).Append?
    ensures target.account < |s.accounts| && s.accounts[target.account].kind == Equity
    ensures !FencedOn(s, YearWindow(s, books, year).end)
    ensures ClosingPost(s, books, year, target.account, includeDraws).date == YearWindow(s, books, year).end
    ensures ClosingPost(s, books, year, target.account, includeDraws).reference == Some(CloseKey(year))
  {
  }

  /** Who holds the year's two references once it is closed into an account. */
  lemma AfterCloseHolders(s: State, books: Books, year: int, account: AccountId)
    requires Inv(s, books) && Proper(books) && BuildClose(s, books, year, ToAccount(account), false).Append?
    ensures var t := AfterClose(s, books, year, ClosePosts(s, books, year, ToAccount(account), false));
            && t.entries == s.entries + [Posted(ClosingPost(s, books, year, account, false))]
            && Holder(t.entries, Keyed(CloseKey(year))) == Some(|s.entries|)
            && Holder(t.entries, Keyed(AllocationKey(year))) == Holder(s.entries, Keyed(AllocationKey(year)))
  {
    hide BuildClose, NetResult, PartnerShares, ClosingPost;
    CloseFacts(s, books, year, ToAccount(account), false);
    CloseShape(s, books, year, ToAccount(account), false);
    CloseKeeps(s, books, year, ToAccount(account), false);
    var closing := ClosingPost(s, books, year, account, false);
    var t := AfterClose(s, books, year, ClosePosts(s, books, year, ToAccount(account), false));
    HolderIsUnique(t.entries, Keyed(CloseKey(year)), |s.entries|);
    HolderAfterPost(s.entries, Posted(closing), Keyed(AllocationKey(year)));
  }

  /** An unfenced post onto the same chart is decided as the fenced one was on an open day. */
  lemma SamePostVerdict(s: State, t: State, post: Post)
    requires s.accounts == t.accounts && !FencedOn(s, post.date) && post.reference.Some?
    requires Holder(s.entries, Keyed(post.reference.value)).None?
          <==> Holder(t.entries, Keyed(post.reference.value)).None?
    ensures BuildPost(t, post, false).Append? <==> BuildPost(s, post, true).Append?
    ensures BuildPost(t, post, false).Append? ==> BuildPost(t, post, false).events == [Posting(post)]
    ensures Holder(t.entries, Keyed(post.reference.value)).Some? ==> BuildPost(s, post, true).Reject?
  {
    SameChecks(s, t, AccountsOf(post.lines));
  }

  lemma HolderAfterPost(entries: seq<Entry>, e: Entry, reference: Reference)
    requires !Holds(e, reference)
    ensures Holder(entries + [e], reference) == Holder(entries, reference)
  {
    assert (entries + [e])[..|entries|] == entries;
  }

  lemma {:induction false} SameChart(s: State, t: State, books: Books, lines: seq<Line>)
    requires s.accounts == t.accounts
    ensures YearAccounts(s, books, lines) == YearAccounts(t, books, lines)
    ensures ResultOf(s, lines) == ResultOf(t, lines)
    ensures forall accounts :: CheckAccounts(s, accounts) == CheckAccounts(t, accounts)
  {
    if lines != [] {
      SameChart(s, t, books, lines[..|lines| - 1]);
    } else {
      forall accounts ensures CheckAccounts(s, accounts) == CheckAccounts(t, accounts) { SameChecks(s, t, accounts); }
    }
  }

  lemma {:induction false} SameChecks(s: State, t: State, accounts: seq<AccountId>)
    requires s.accounts == t.accounts
    ensures CheckAccounts(s, accounts) == CheckAccounts(t, accounts)
  {
    if accounts != [] {
      SameChecks(s, t, accounts[1..]);
    }
  }

  lemma {:induction false} RoutesMeet(s: State, books: Books, year: int, account: AccountId, t: State)
    requires Inv(s, books) && Proper(books) && NetResult(s, books, year, false) != 0 && !IsLinked(books, account)
    requires BuildClose(s, books, year, ToAccount(account), false).Append?
    requires BuildClose(s, books, year, ToPartners(account), false).Append?
    requires t == AfterClose(s, books, year, ClosePosts(s, books, year, ToAccount(account), false))
    requires BuildAllocate(t, books, year).Append?
    ensures Record(t, BuildAllocate(t, books, year).events)
         == Record(s, BuildClose(s, books, year, ToPartners(account), false).events)
  {
    hide BuildClose, BuildAllocate, NetResult, ClosingPost, AllocationPost, PartnerShares, BuildPost, InvBut, IsLinked,
         Posting;
    CloseKeeps(s, books, year, ToPartners(account), false);
    CloseKeeps(s, books, year, ToAccount(account), false);
    CloseShape(s, books, year, ToPartners(account), false);
    CloseShape(s, books, year, ToAccount(account), false);
    SecondRoute(s, books, year, account);
    AllocateKeeps(t, books, year);
    var net := NetResult(s, books, year, false);
    var allocation := AllocationPost(books, year, YearWindow(s, books, year).end, account, net,
                                     PartnerShares(books, year, net).value);
    RecordOne(t, Posting(allocation));
    PostingProjects(t, allocation);
    assert s.entries + ([Posted(ClosingPost(s, books, year, account, false))] + [Posted(allocation)])
        == t.entries + [Posted(allocation)];
  }

  lemma PostingProjects(s: State, post: Post)
    requires Record(s, [Posting(post)]).Some?
    ensures Project(s, Posting(post)) == Some(With(s, [Posted(post)]))
  {
    RecordOne(s, Posting(post));
  }

  /** Either way the year account ends where it was before the close, on every day. */
  lemma YearAccountIsPassedThrough(s: State, books: Books, year: int, account: AccountId, asOf: Date)
    requires Inv(s, books) && Proper(books) && BuildClose(s, books, year, ToPartners(account), false).Append?
    requires !IsLinked(books, account)
    ensures Balance(AfterClose(s, books, year, ClosePosts(s, books, year, ToPartners(account), false)).entries,
                    account, asOf)
         == Balance(s.entries, account, asOf)
  {
    CloseMoves(s, books, year, ToPartners(account), account, asOf);
    var net := NetResult(s, books, year, false);
    var shares := PartnerShares(books, year, net);
    if shares.Done? {
      SharesAddBack(books, year, net);
      SumZero(shares.value, (x: Share) => if x.account == account then x.cents else 0);
    }
  }

  /** A year that came to exactly zero posts no line to the year account, so an allocation reports
      that there is no year account: its own refusal for a zero result is never reached. */
  lemma {:induction false} ZeroResultReportsNoYearAccount(s: State, books: Books, year: int, account: AccountId)
    requires Inv(s, books) && Proper(books) && NetResult(s, books, year, false) == 0
    requires BuildClose(s, books, year, ToAccount(account), false).Append?
    requires Holder(s.entries, Keyed(AllocationKey(year))).None?
    ensures BuildAllocate(AfterClose(s, books, year, ClosePosts(s, books, year, ToAccount(account), false)), books,
                          year)
         == Reject(NoYearAccount)
  {
    hide BuildClose, NetResult, ClosingPost, YearAccounts, ResultOf, InvBut;
    CloseFacts(s, books, year, ToAccount(account), false);
    AfterCloseHolders(s, books, year, account);
    var t := AfterClose(s, books, year, ClosePosts(s, books, year, ToAccount(account), false));
    ClosingEntryTellsAll(s, books, year, account);
    SameChart(s, t, books, ClosingPost(s, books, year, account, false).lines);
  }

  // ------------------------------------------------------------------ reopening

  /** The same books, but for entries since posted and voided again. */
  ghost predicate Restores(s: State, u: State) {
    && u.accounts == s.accounts && u.bills == s.bills
    && |s.entries| <= |u.entries| && u.entries[..|s.entries|] == s.entries
    && (forall i :: |s.entries| <= i < |u.entries| ==> u.entries[i].isVoid)
  }

  lemma {:induction false} VoidTailWeighsNothing(entries: seq<Entry>, tail: seq<Entry>, f: Entry -> int)
    requires forall e :: e in tail ==> f(e) == 0
    ensures Sum(entries + tail, f) == Sum(entries, f)
  {
    SumConcat(entries, tail, f);
    SumZero(tail, f);
  }

  /** Restored books give every figure they gave before. */
  lemma RestoredBooksReadTheSame(s: State, u: State, a: AccountId, asOf: Date)
    requires Restores(s, u)
    ensures Balance(u.entries, a, asOf) == Balance(s.entries, a, asOf)
    ensures Debits(u.entries, asOf) == Debits(s.entries, asOf)
    ensures Credits(u.entries, asOf) == Credits(s.entries, asOf)
  {
    var tail := u.entries[|s.entries|..];
    assert u.entries == s.entries + tail;
    assert forall e :: e in tail ==> e.isVoid;
    VoidTailWeighsNothing(s.entries, tail, (e: Entry) => Effect(e, a, asOf));
    VoidTailWeighsNothing(s.entries, tail, (e: Entry) => DebitsOf(e, asOf));
    VoidTailWeighsNothing(s.entries, tail, (e: Entry) => CreditsOf(e, asOf));
  }

  lemma VoidedStaysUnique(t: State, reference: Reference)
    requires UniqueReferences(t.entries)
    ensures UniqueReferences(VoidedHolder(t, reference).entries)
  {
  }

  /** Which entries a reopen finds after a close. */
  lemma VoidsShape(s: State, t: State, year: int, closing: Entry, more: seq<Entry>)
    requires UniqueReferences(t.entries) && t.entries == s.entries + ([closing] + more)
    requires Holds(closing, Keyed(CloseKey(year)))
    requires more == [] || (|more| == 1 && Holds(more[0], Keyed(AllocationKey(year))))
    ensures Holder(t.entries, Keyed(CloseKey(year))) == Some(|s.entries|)
    ensures Holder(t.entries, Keyed(AllocationKey(year)))
         == if more != [] then Some(|s.entries| + 1) else Holder(s.entries, Keyed(AllocationKey(year)))
    ensures more != [] ==> Holder(s.entries, Keyed(AllocationKey(year))).None?
  {
    var n := |s.entries|;
    HolderIsUnique(t.entries, Keyed(CloseKey(year)), n);
    if more != [] {
      assert t.entries[n + 1] == more[0];
      HolderIsUnique(t.entries, Keyed(AllocationKey(year)), n + 1);
      forall i | 0 <= i < n
        ensures !Holds(s.entries[i], Keyed(AllocationKey(year)))
      {
        assert t.entries[i] == s.entries[i];
      }
    } else {
      assert t.entries == s.entries + [closing];
      HolderAfterPost(s.entries, closing, Keyed(AllocationKey(year)));
    }
  }

  /** Reopening voids what a close, and an allocation with it or after it, posted; and nothing else,
      exactly when no entry held the allocation's reference beforehand. */
  lemma ReopenVoidsPosts(s: State, t: State, year: int, closing: Entry, more: seq<Entry>)
    requires UniqueReferences(t.entries) && t.accounts == s.accounts && t.bills == s.bills && year in t.years
    requires t.entries == s.entries + ([closing] + more)
    requires Holds(closing, Keyed(CloseKey(year)))
    requires more == [] || (|more| == 1 && Holds(more[0], Keyed(AllocationKey(year))))
    ensures var u := Reopened(t, year);
            && u.years == t.years[year := t.years[year].(closed := false, closing := None)]
            && (Restores(s, u) <==> Holder(s.entries, Keyed(AllocationKey(year))).None?)
            && Holder(u.entries, Keyed(CloseKey(year))).None? && Holder(u.entries, Keyed(AllocationKey(year))).None?
  {
    VoidsShape(s, t, year, closing, more);
    var v := VoidedHolder(t, Keyed(AllocationKey(year)));
    HolderSurvives(t.entries, Keyed(AllocationKey(year)), Keyed(CloseKey(year)));
    VoidedStaysUnique(t, Keyed(AllocationKey(year)));
    hide Holder, UniqueReferences, Holds;
    HolderSurvives(v.entries, Keyed(CloseKey(year)), Keyed(AllocationKey(year)));
  }

  lemma InvIsUnique(s: State, books: Books)
    requires Inv(s, books)
    ensures UniqueReferences(s.entries)
  {
  }

  /** Reopen undoes close, allocated or not: every balance on every day, both references, the fence;
      whole, exactly when no caller held the allocation's reference beforehand. */
  lemma {:induction false} ReopenUndoesClose(s: State, books: Books, year: int, target: Target, includeDraws: bool)
    requires Inv(s, books) && Proper(books) && BuildClose(s, books, year, target, includeDraws).Append?
    ensures var t := AfterClose(s, books, year, ClosePosts(s, books, year, target, includeDraws));
            var u := Reopened(t, year);
            && BuildReopen(t, year).Append? && Record(t, BuildReopen(t, year).events) == Some(u)
            && (Restores(s, u) <==> Holder(s.entries, Keyed(AllocationKey(year))).None?)
            && Holder(u.entries, Keyed(CloseKey(year))).None? && Holder(u.entries, Keyed(AllocationKey(year))).None?
            && u.years == s.years[year := FiscalYear(YearWindow(s, books, year), false, None)]
  {
    hide *;
    var posts := ClosePosts(s, books, year, target, includeDraws);
    var t := AfterClose(s, books, year, posts);
    CloseKeeps(s, books, year, target, includeDraws);
    ClosePostsHold(s, books, year, target, includeDraws);
    AfterCloseIs(s, books, year, posts);
    ClosedCanReopen(t, year);
    ReopenKeeps(t, books, year);
    InvIsUnique(t, books);
    ReopenVoidsPosts(s, t, year, posts[0], posts[1..]);
  }

  lemma AfterCloseIs(s: State, books: Books, year: int, posts: seq<Entry>)
    requires posts != []
    ensures var t := AfterClose(s, books, year, posts);
            && t.accounts == s.accounts && t.bills == s.bills && t.entries == s.entries + ([posts[0]] + posts[1..])
            && year in t.years && t.years[year].closed
            && t.years[year := t.years[year].(closed := false, closing := None)]
               == s.years[year := FiscalYear(YearWindow(s, books, year), false, None)]
  {
    hide YearWindow;
    assert posts == [posts[0]] + posts[1..];
  }

  lemma ClosedCanReopen(t: State, year: int)
    requires year in t.years && t.years[year].closed
    ensures BuildReopen(t, year).Append?
  {
  }

  /** A close's posts hold the year's closing reference and, if there are two, its allocation's. */
  lemma ClosePostsHold(s: State, books: Books, year: int, target: Target, includeDraws: bool)
    requires BuildClose(s, books, year, target, includeDraws).Append?
    ensures var posts := ClosePosts(s, books, year, target, includeDraws);
            && 1 <= |posts| <= 2 && Holds(posts[0], Keyed(CloseKey(year)))
            && (|posts| == 2 ==> Holds(posts[1], Keyed(AllocationKey(year))))
  {
    CloseShape(s, books, year, target, includeDraws);
  }

  /** The same for a close that was allocated in a second step. */
  lemma {:induction false} ReopenUndoesCloseAndAllocation(s: State, books: Books, year: int, account: AccountId)
    requires Inv(s, books) && Proper(books) && BuildClose(s, books, year, ToAccount(account), false).Append?
    requires BuildAllocate(AfterClose(s, books, year, ClosePosts(s, books, year, ToAccount(account), false)), books,
                           year).Append?
    ensures var t := AfterClose(s, books, year, ClosePosts(s, books, year, ToAccount(account), false));
            var v := Record(t, BuildAllocate(t, books, year).events);
            && v.Some? && Restores(s, Reopened(v.value, year))
            && Holder(Reopened(v.value, year).entries, Keyed(CloseKey(year))).None?
            && Holder(Reopened(v.value, year).entries, Keyed(AllocationKey(year))).None?
  {
    CloseKeeps(s, books, year, ToAccount(account), false);
    CloseShape(s, books, year, ToAccount(account), false);
    hide BuildClose, BuildAllocate, ClosingPost, InvBut, Record;
    var t := AfterClose(s, books, year, ClosePosts(s, books, year, ToAccount(account), false));
    AllocateKeeps(t, books, year);
    AllocationHolds(t, books, year);
    AllocatedBooksReopen(s, books, t, Record(t, BuildAllocate(t, books, year).events).value, year);
  }

  lemma AllocatedBooksReopen(s: State, books: Books, t: State, v: State, year: int)
    requires t.accounts == s.accounts && t.bills == s.bills && year in t.years
    requires |t.entries| == |s.entries| + 1 && t.entries == s.entries + [t.entries[|s.entries|]]
    requires Holds(t.entries[|s.entries|], Keyed(CloseKey(year))) && Holder(t.entries, Keyed(AllocationKey(year))).None?
    requires |v.entries| == |t.entries| + 1 && v == With(t, [v.entries[|t.entries|]]) && Inv(v, books)
    requires Holds(v.entries[|t.entries|], Keyed(AllocationKey(year)))
    ensures Restores(s, Reopened(v, year))
    ensures Holder(Reopened(v, year).entries, Keyed(CloseKey(year))).None?
    ensures Holder(Reopened(v, year).entries, Keyed(AllocationKey(year))).None?
  {
    var closing, allocation := t.entries[|s.entries|], v.entries[|t.entries|];
    assert v.entries == s.entries + ([closing] + [allocation]);
    HolderAfterPost(s.entries, closing, Keyed(AllocationKey(year)));
    ReopenVoidsPosts(s, v, year, closing, [allocation]);
  }

  /** An allocation posts one entry, under the year's allocation reference. */
  lemma AllocationHolds(t: State, books: Books, year: int)
    requires BuildAllocate(t, books, year).Append? && Record(t, BuildAllocate(t, books, year).events).Some?
    ensures Holder(t.entries, Keyed(AllocationKey(year))).None?
    ensures var v := Record(t, BuildAllocate(t, books, year).events).value;
            && |v.entries| == |t.entries| + 1 && v == With(t, [v.entries[|t.entries|]])
            && Holds(v.entries[|t.entries|], Keyed(AllocationKey(year)))
  {
    var event := BuildAllocate(t, books, year).events[0];
    assert BuildAllocate(t, books, year).events == [event];
    RecordOne(t, event);
  }

  lemma {:induction false} RestoredSweep(s: State, u: State, kind: AccountType, asOf: Date,
                                         only: Option<seq<AccountId>>, n: nat)
    requires Restores(s, u) && n <= |s.accounts|
    ensures SweptBelow(u, kind, asOf, only, n) == SweptBelow(s, kind, asOf, only, n)
  {
    if n != 0 {
      RestoredSweep(s, u, kind, asOf, only, n - 1);
      RestoredBooksReadTheSame(s, u, n - 1, asOf);
    }
  }

  /** Closing again on the restored ledger posts the very same entries, whatever the target. */
  lemma ClosingAgainIsTheSame(s: State, u: State, books: Books, year: int, target: Target, includeDraws: bool)
    requires Restores(s, u)
    requires Holder(s.entries, Keyed(CloseKey(year))).None? && Holder(u.entries, Keyed(CloseKey(year))).None?
    requires Holder(s.entries, Keyed(AllocationKey(year))).None? && Holder(u.entries, Keyed(AllocationKey(year))).None?
    requires u.years == s.years[year := FiscalYear(YearWindow(s, books, year), false, None)]
    requires year in s.years ==> !s.years[year].closed
    ensures BuildClose(u, books, year, target, includeDraws).Append?
         <==> BuildClose(s, books, year, target, includeDraws).Append?
    ensures NetResult(u, books, year, includeDraws) == NetResult(s, books, year, includeDraws)
    ensures ClosePosts(u, books, year, target, includeDraws) == ClosePosts(s, books, year, target, includeDraws)
  {
    hide AccountsWithBalances, Sum, PartnerShares, CheckAccounts, AllocationPost, FencedOn, ClosingLines, DrawAccounts,
         CheckCanClose,
         FiscalWindow;
    var window := YearWindow(s, books, year);
    RestoredReadings(s, u, books, year, window, includeDraws);
    SameFence(s, u, year, window.end);
    var closing := ClosingPost(s, books, year, target.account, includeDraws);
    SameChecks(s, u, AccountsOf(closing.lines));
    var net := NetResult(s, books, year, includeDraws);
    var shares := PartnerShares(books, year, net);
    if shares.Done? {
      var allocation := AllocationPost(books, year, window.end, target.account, net, shares.value);
      AllocationPostIs(books, year, window.end, target.account, net, shares.value);
      SameChecks(s, u, AccountsOf(allocation.lines));
    }
  }

  lemma RestoredReadings(s: State, u: State, books: Books, year: int, window: Window, includeDraws: bool)
    requires Restores(s, u)
    requires YearWindow(s, books, year) == window == YearWindow(u, books, year)
    ensures SweptBy(u, books, year, includeDraws) == SweptBy(s, books, year, includeDraws)
    ensures CheckCanClose(u, window, AccountsWithBalances(u, Revenue, window.end, None),
                          AccountsWithBalances(u, Expense, window.end, None))
         == CheckCanClose(s, window, AccountsWithBalances(s, Revenue, window.end, None),
                          AccountsWithBalances(s, Expense, window.end, None))
  {
    hide SweptBelow;
    RestoredSweep(s, u, Revenue, window.end, None, |s.accounts|);
    RestoredSweep(s, u, Expense, window.end, None, |s.accounts|);
    RestoredSweep(s, u, Equity, window.end, Some(DrawAccounts(books.links)), |s.accounts|);
    RestoredSweep(s, u, Revenue, window.start - 1, None, |s.accounts|);
    RestoredSweep(s, u, Expense, window.start - 1, None, |s.accounts|);
    RestoredBooksReadTheSame(s, u, 0, window.end);
  }

  lemma SameFence(s: State, u: State, year: int, day: Date)
    requires u.years.Keys == s.years.Keys + {year}
    requires forall y :: y in s.years && y != year ==> u.years[y] == s.years[y]
    requires year in s.years ==> !s.years[year].closed
    requires !u.years[year].closed
    ensures FencedOn(u, day) == FencedOn(s, day)
  {
    if FencedOn(s, day) {
      var y :| y in s.years && s.years[y].closed && s.years[y].window.Contains(day);
      assert u.years[y].closed;
    }
    if FencedOn(u, day) {
      var y :| y in u.years && u.years[y].closed && u.years[y].window.Contains(day);
      assert y in s.years && s.years[y].closed;
    }
  }
}
