/** The close as the code runs it: lines, sweep total and events gathered step by step. */
module CloseLoops {
  import opened Options
  import opened Sums
  import opened Calendar
  import opened Ledger
  import opened Commands

  /** Each swept account back to zero, and what they held together. */
  method Sweep(swept: seq<Swept>, currency: Currency) returns (lines: seq<Line>, total: Cents)
    ensures lines == ClosingLines(swept, currency) && total == SweepTotal(swept)
  {
    lines, total := [], 0;
    var i := 0;
    while i < |swept|
      invariant 0 <= i <= |swept|
      invariant lines == ClosingLines(swept[..i], currency) && total == SweepTotal(swept[..i])
    {
      assert swept[..i + 1][..i] == swept[..i];
      total := total + swept[i].balance;
      lines := lines + [Line(swept[i].account, -swept[i].balance, currency)];
      i := i + 1;
    }
    assert swept[..i] == swept;
  }

  /** The accounts linked to a partner in the contribution role. */
  method MyAccounts(links: seq<Link>, partner: nat) returns (mine: seq<AccountId>)
    ensures mine == LinkedAccounts(links, partner)
  {
    mine := [];
    var i := 0;
    while i < |links|
      invariant 0 <= i <= |links| && mine == LinkedAccounts(links[..i], partner)
    {
      assert links[..i + 1][..i] == links[..i];
      if links[i].partner == partner && links[i].role == Contribution {
        mine := mine + [links[i].account];
      }
      i := i + 1;
    }
    assert links[..i] == links;
  }

  lemma {:induction false} RefusalSpreads(books: Books, partners: seq<nat>, n: nat)
    requires n <= |partners| && CapitalTargets(books, partners[..n]).Refused?
    ensures CapitalTargets(books, partners) == CapitalTargets(books, partners[..n])
    decreases |partners| - n
  {
    if n < |partners| {
      assert partners[..n + 1][..n] == partners[..n];
      RefusalSpreads(books, partners, n + 1);
    } else {
      assert partners[..n] == partners;
    }
  }

  method FindTargets(books: Books, partners: seq<nat>) returns (targets: Outcome<seq<AccountId>>)
    ensures targets == CapitalTargets(books, partners)
  {
    var found: seq<AccountId> := [];
    var i := 0;
    while i < |partners|
      invariant 0 <= i <= |partners| && CapitalTargets(books, partners[..i]) == Done(found)
    {
      assert partners[..i + 1][..i] == partners[..i];
      var mine := MyAccounts(books.links, partners[i]);
      if |mine| != 1 {
        RefusalSpreads(books, partners, i + 1);
        return Refused(if mine == [] then PartnerHasNoCapitalAccount else PartnerCapitalIsAmbiguous);
      }
      found := found + mine;
      i := i + 1;
    }
    assert partners[..i] == partners;
    targets := Done(found);
  }

  /** `partner_capital_lines`. */
  method PartnerCapitalLines(books: Books, year: int, net: Cents) returns (shares: Outcome<seq<Share>>)
    ensures shares == PartnerShares(books, year, net)
  {
    if books.soleProprietor {
      return Refused(NotAPartnership);
    }
    var partners := books.partners(year);
    if partners == [] {
      return Refused(NoPartnersInYear);
    }
    var targets := FindTargets(books, partners);
    if targets.Refused? {
      return Refused(targets.error);
    }
    var cents := books.split(year, net);
    var divided := 0;
    var i := 0;
    while i < |cents|
      invariant 0 <= i <= |cents| && divided == Sum(cents[..i], (c: Cents) => c)
    {
      assert cents[..i + 1][..i] == cents[..i];
      divided := divided + cents[i];
      i := i + 1;
    }
    assert cents[..i] == cents;
    if divided != net {
      return Refused(SharesDoNotTotal);
    }
    var out: seq<Share> := [];
    i := 0;
    while i < |targets.value|
      invariant 0 <= i <= |targets.value| && |out| == i
      invariant forall k :: 0 <= k < i ==> out[k] == Share(targets.value[k], if k < |cents| then cents[k] else 0)
    {
      out := out + [Share(targets.value[i], if i < |cents| then cents[i] else 0)];
      i := i + 1;
    }
    ghost var spec := PartnerShares(books, year, net);
    assert forall k :: 0 <= k < |out| ==> spec.value[k] == out[k];
    assert spec.value == out;
    shares := Done(out);
  }

  /** The loop of `allocation_post`: a partner whose share is nothing has no line. */
  method LinesOfShares(shares: seq<Share>, currency: Currency) returns (lines: seq<Line>)
    ensures lines == ShareLines(shares, currency)
  {
    lines := [];
    var i := 0;
    while i < |shares|
      invariant 0 <= i <= |shares| && lines == ShareLines(shares[..i], currency)
    {
      assert shares[..i + 1][..i] == shares[..i];
      if shares[i].cents != 0 {
        lines := lines + [Line(shares[i].account, -shares[i].cents, currency)];
      }
      i := i + 1;
    }
    assert shares[..i] == shares;
  }

  /** The closing entry and the net result, from what is swept. */
  method ClosingEntry(s: State, books: Books, year: int, account: AccountId, includeDraws: bool, swept: seq<Swept>)
    returns (post: Post, net: Cents)
    requires swept == SweptBy(s, books, year, includeDraws)
    ensures post == ClosingPost(s, books, year, account, includeDraws) && net == NetResult(s, books, year, includeDraws)
  {
    hide SweptBy, SweepTotal, ClosingLines, YearWindow;
    var lines, total := Sweep(swept, books.currency);
    assert lines + [] == lines;
    if total != 0 {
      lines := lines + [Line(account, total, books.currency)];
    }
    post := Post(YearWindow(s, books, year).end, lines, Some(CloseKey(year)), Some(Closing));
    net := -total;
  }

  /** `allocation_post`. */
  method AllocationEntry(books: Books, year: int, date: Date, account: AccountId, net: Cents,
                         shares: seq<Share>)
    returns (post: Post)
    ensures post == AllocationPost(books, year, date, account, net, shares)
  {
    var rest := LinesOfShares(shares, books.currency);
    post := Post(date, [Line(account, net, books.currency)] + rest, Some(AllocationKey(year)), Some(Closing));
  }

  /** `build_close_books_in_txn`. */
  method BuildCloseBooks(s: State, books: Books, year: int, target: Target,
                         includeDraws: bool)
    returns (verdict: Verdict)
    ensures verdict == BuildClose(s, books, year, target, includeDraws)
  {
    hide Sum, SweptBelow, PartnerShares, Holder, CheckCanClose, ClosingPost, AllocationPost, NetResult, BuildPost,
         DrawAccounts;
    if |s.accounts| <= target.account {
      return Reject(EquityAccountMissing);
    }
    if s.accounts[target.account].kind != Equity {
      return Reject(EquityAccountWrongType);
    }
    var window := YearWindow(s, books, year);
    var holder := Holder(s.entries, Keyed(CloseKey(year)));
    if holder.Some? {
      return Reject(AlreadyClosed(holder.value));
    }
    var revenue := AccountsWithBalances(s, Revenue, window.end, None);
    var expenses := AccountsWithBalances(s, Expense, window.end, None);
    var draws := if includeDraws then AccountsWithBalances(s, Equity, window.end, Some(DrawAccounts(books.links)))
      else [];
    var refusal := CheckCanClose(s, window, revenue, expenses);
    if refusal.Some? {
      return Reject(refusal.value);
    }
    var post, net := ClosingEntry(s, books, year, target.account, includeDraws, revenue + expenses + draws);
    var shares := Done([]);
    if target.ToPartners? {
      shares := PartnerCapitalLines(books, year, net);
      if shares.Refused? {
        return Reject(shares.error);
      }
    }
    var events: seq<Event> := [];
    if year !in s.years {
      events := events + [YearOpened(year, window)];
    }
    var closing := BuildPost(s, post, true);
    if closing.Reject? {
      return closing;
    }
    events := events + closing.events;
    if target.ToPartners? && net != 0 {
      var more := AllocationEntry(books, year, window.end, target.account, net, shares.value);
      var allocation := BuildPost(s, more, true);
      if allocation.Reject? {
        return allocation;
      }
      events := events + allocation.events;
    }
    verdict := Append(events + [YearClosed(year, |s.entries|)]);
  }
}
