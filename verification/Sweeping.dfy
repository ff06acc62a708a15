/** What the lines of a close and of an allocation add up to. */
module Sweeping {
  import opened Options
  import opened Sums
  import opened Calendar
  import opened Ledger
  import opened Commands

  /** The sweep's lines move an account it lists by minus what it holds, and no other. */
  lemma {:induction false} SweptOn(s: State, kind: AccountType, asOf: Date, only: Option<seq<AccountId>>, n: nat,
                                   currency: Currency,
                                   a: AccountId)
    requires n <= |s.accounts|
    ensures On(ClosingLines(SweptBelow(s, kind, asOf, only, n), currency), a)
         == if a < n && Sweeps(s, kind, asOf, only, a) then -Balance(s.entries, a, asOf) else 0
  {
    hide Sweeps, Balance, ClosingLines;
    if n == 0 {
      NoneOn(currency, a);
    } else {
      SweptOn(s, kind, asOf, only, n - 1, currency, a);
      var before := SweptBelow(s, kind, asOf, only, n - 1);
      if Sweeps(s, kind, asOf, only, n - 1) {
        var x := Swept(n - 1, Balance(s.entries, n - 1, asOf), s.accounts[n - 1].active);
        hide On;
        ClosingLinesConcat(before, [x], currency);
        OnConcat(ClosingLines(before, currency), ClosingLines([x], currency), a);
        OneClosingLine(x, currency);
        OnOne(Line(x.account, -x.balance, currency), a);
      }
    }
  }

  /** The sweep lists exactly the accounts of the kind that hold something, with what they hold,
      and its lines move each of them by minus that. */
  lemma {:induction false} SweptIsComplete(s: State, kind: AccountType, asOf: Date, only: Option<seq<AccountId>>,
                                           n: nat, currency: Currency)
    requires n <= |s.accounts|
    ensures forall x :: x in SweptBelow(s, kind, asOf, only, n) ==>
              && x.account < n && Sweeps(s, kind, asOf, only, x.account)
              && x.balance == Balance(s.entries, x.account, asOf) && x.active == s.accounts[x.account].active
    ensures forall a | 0 <= a < n && Sweeps(s, kind, asOf, only, a) ::
              Swept(a, Balance(s.entries, a, asOf), s.accounts[a].active) in SweptBelow(s, kind, asOf, only, n)
    ensures forall a: AccountId :: On(ClosingLines(SweptBelow(s, kind, asOf, only, n), currency), a)
              == if a < n && Sweeps(s, kind, asOf, only, a) then -Balance(s.entries, a, asOf) else 0
  {
    hide Sweeps, Balance, ClosingLines, On;
    forall a: AccountId
      ensures On(ClosingLines(SweptBelow(s, kind, asOf, only, n), currency), a)
           == if a < n && Sweeps(s, kind, asOf, only, a) then -Balance(s.entries, a, asOf) else 0
    {
      SweptOn(s, kind, asOf, only, n, currency, a);
    }
    if n != 0 {
      SweptIsComplete(s, kind, asOf, only, n - 1, currency);
    }
  }

  lemma OneClosingLine(x: Swept, currency: Currency)
    ensures ClosingLines([x], currency) == [Line(x.account, -x.balance, currency)]
  {
    assert [x][..0] == [];
  }

  lemma {:induction false} ClosingLinesConcat(a: seq<Swept>, b: seq<Swept>, currency: Currency)
    ensures ClosingLines(a + b, currency) == ClosingLines(a, currency) + ClosingLines(b, currency)
  {
    if b == [] {
      assert a + b == a;
    } else {
      var n := |b| - 1;
      ClosingLinesConcat(a, b[..n], currency);
      assert (a + b)[..|a| + n] == a + b[..n];
    }
  }

  lemma {:induction false} ClosingLinesTotal(swept: seq<Swept>, currency: Currency)
    ensures Total(ClosingLines(swept, currency)) == -SweepTotal(swept)
    ensures forall i :: 0 <= i < |swept| ==>
                          ClosingLines(swept, currency)[i] == Line(swept[i].account, -swept[i].balance, currency)
  {
    if swept != [] {
      var n := |swept| - 1;
      ClosingLinesTotal(swept[..n], currency);
      TotalConcat(ClosingLines(swept[..n], currency), [Line(swept[n].account, -swept[n].balance, currency)]);
      TotalOne(Line(swept[n].account, -swept[n].balance, currency));
    }
  }

  /** What one kind's sweep does to an account. */
  lemma KindOn(s: State, kind: AccountType, asOf: Date, only: Option<seq<AccountId>>, currency: Currency, a: AccountId)
    ensures On(ClosingLines(AccountsWithBalances(s, kind, asOf, only), currency), a)
         == if a < |s.accounts| && s.accounts[a].kind == kind && (only.Some? ==> a in only.value)
            then -Balance(s.entries, a, asOf) else 0
  {
    hide On, Balance, ClosingLines, SweptBelow;
    SweptOn(s, kind, asOf, only, |s.accounts|, currency, a);
  }

  lemma NoneOn(currency: Currency, a: AccountId)
    ensures On(ClosingLines([], currency), a) == 0 && On([], a) == 0
  {
  }

  /** What each account gets from the whole closing entry. */
  lemma ClosingEffect(s: State, books: Books, year: int, yearAccount: AccountId, includeDraws: bool, a: AccountId)
    requires yearAccount < |s.accounts| && s.accounts[yearAccount].kind == Equity
    ensures var post := ClosingPost(s, books, year, yearAccount, includeDraws);
            var own := if a == yearAccount then -NetResult(s, books, year, includeDraws) else 0;
            On(post.lines, a) == own
              + if a < |s.accounts| && (Income(s.accounts[a].kind)
                                        || (includeDraws && s.accounts[a].kind == Equity
                                            && a in DrawAccounts(books.links)))
                then -Balance(s.entries, a, post.date) else 0
  {
    hide AccountsWithBalances, On, Balance, ClosingLines, YearWindow, SweepTotal, DrawAccounts;
    var asOf := YearWindow(s, books, year).end;
    var c := books.currency;
    var revenue, expenses := AccountsWithBalances(s, Revenue, asOf, None), AccountsWithBalances(s, Expense, asOf, None);
    var draws := if includeDraws then AccountsWithBalances(s, Equity, asOf, Some(DrawAccounts(books.links))) else [];
    var swept := revenue + expenses + draws;
    KindOn(s, Revenue, asOf, None, c, a);
    KindOn(s, Expense, asOf, None, c, a);
    KindOn(s, Equity, asOf, Some(DrawAccounts(books.links)), c, a);
    NoneOn(c, a);
    ClosingLinesConcat(revenue + expenses, draws, c);
    ClosingLinesConcat(revenue, expenses, c);
    OnConcat(ClosingLines(revenue + expenses, c), ClosingLines(draws, c), a);
    OnConcat(ClosingLines(revenue, c), ClosingLines(expenses, c), a);
    var last := if SweepTotal(swept) != 0 then [Line(yearAccount, SweepTotal(swept), c)] else [];
    OnConcat(ClosingLines(swept, c), last, a);
    OnOne(Line(yearAccount, SweepTotal(swept), c), a);
  }

  lemma SweptHoldSomething(s: State, books: Books, year: int, includeDraws: bool)
    ensures forall x :: x in SweptBy(s, books, year, includeDraws) ==> x.balance != 0
  {
    var asOf := YearWindow(s, books, year).end;
    SweptIsComplete(s, Revenue, asOf, None, |s.accounts|, 0);
    SweptIsComplete(s, Expense, asOf, None, |s.accounts|, 0);
    SweptIsComplete(s, Equity, asOf, Some(DrawAccounts(books.links)), |s.accounts|, 0);
    hide SweptBelow, Balance, DrawAccounts, YearWindow;
  }

  /** The closing entry is a valid entry whatever is swept: it sums to zero and has two lines. */
  lemma ClosingEntryIsSound(s: State, books: Books, year: int, yearAccount: AccountId, includeDraws: bool)
    requires YearWindow(s, books, year).start <= YearWindow(s, books, year).end + 1
    requires AccountsWithBalances(s, Revenue, YearWindow(s, books, year).end, None) != []
          || AccountsWithBalances(s, Expense, YearWindow(s, books, year).end, None) != []
    ensures Sound(Posting(ClosingPost(s, books, year, yearAccount, includeDraws)))
  {
    hide AccountsWithBalances, YearWindow, ClosingLines, Total, DrawAccounts;
    var swept := SweptBy(s, books, year, includeDraws);
    var total := SweepTotal(swept);
    SweptHoldSomething(s, books, year, includeDraws);
    if |swept| == 1 {
      assert total == SweepTotal(swept[..0]) + swept[0].balance;
      assert swept[0] in swept;
    }
    hide SweepTotal;
    var last := if total != 0 then [Line(yearAccount, total, books.currency)] else [];
    ClosingLinesTotal(swept, books.currency);
    TotalConcat(ClosingLines(swept, books.currency), last);
    TotalOne(Line(yearAccount, total, books.currency));
    NoTotal();
  }

  lemma NoTotal()
    ensures Total([]) == 0
  {
  }

  function ShareTotal(shares: seq<Share>): Cents {
    Sum(shares, (x: Share) => x.cents)
  }

  /** What one account gets from a division of the result. */
  function ShareOf(shares: seq<Share>, a: AccountId): Cents {
    Sum(shares, (x: Share) => if x.account == a then x.cents else 0)
  }

  lemma {:induction false} ShareLinesAre(shares: seq<Share>, currency: Currency)
    ensures forall l :: l in ShareLines(shares, currency) ==>
              l.currency == currency && exists x :: x in shares && x.cents != 0 && x.account == l.account
                                                    && x.cents == -l.amount
  {
    if shares != [] {
      var n := |shares| - 1;
      ShareLinesAre(shares[..n], currency);
      assert shares == shares[..n] + [shares[n]];
    }
  }

  lemma {:induction false} ShareLinesAddUp(shares: seq<Share>, currency: Currency)
    ensures Total(ShareLines(shares, currency)) == -ShareTotal(shares)
    ensures forall a :: On(ShareLines(shares, currency), a) == -ShareOf(shares, a)
    ensures forall l :: l in ShareLines(shares, currency) ==> exists x :: x in shares && x.account == l.account
    ensures ShareTotal(shares) != 0 ==> ShareLines(shares, currency) != []
  {
    if shares != [] {
      var n := |shares| - 1;
      ShareLinesAddUp(shares[..n], currency);
      var line := Line(shares[n].account, -shares[n].cents, currency);
      var before := ShareLines(shares[..n], currency);
      TotalConcat(before, [line]);
      TotalOne(line);
      forall a ensures On(before + [line], a) == On(before, a) + LineOn(line, a) {
        OnConcat(before, [line], a);
        OnOne(line, a);
      }
    }
  }

  lemma {:induction false} TargetsAnswerEachPartner(books: Books, partners: seq<nat>)
    ensures CapitalTargets(books, partners).Done? ==> |CapitalTargets(books, partners).value| == |partners|
    ensures CapitalTargets(books, partners).Done? ==>
              forall a :: a in CapitalTargets(books, partners).value ==>
                            exists l :: l in books.links && l.role == Contribution && l.account == a
  {
    if partners != [] {
      TargetsAnswerEachPartner(books, partners[..|partners| - 1]);
      LinkedAccountsAreLinked(books.links, partners[|partners| - 1]);
    }
  }

  lemma {:induction false} LinkedAccountsAreLinked(links: seq<Link>, partner: nat)
    ensures forall a :: a in LinkedAccounts(links, partner) ==>
                          exists l :: l in links && l.role == Contribution && l.account == a
  {
    if links != [] {
      LinkedAccountsAreLinked(links[..|links| - 1], partner);
      assert links[|links| - 1] in links;
      assert forall l :: l in links[..|links| - 1] ==> l in links;
    }
  }

  predicate IsCapital(l: Link, partner: nat) {
    l.partner == partner && l.role == Contribution
  }

  /** The one link that says where a partner's capital is. */
  ghost predicate OnlyCapital(links: seq<Link>, partner: nat, j: int) {
    && 0 <= j < |links| && IsCapital(links[j], partner)
    && forall k :: 0 <= k < |links| && k != j ==> !IsCapital(links[k], partner)
  }

  ghost predicate HasOneCapital(links: seq<Link>, partner: nat) {
    exists j :: OnlyCapital(links, partner, j)
  }

  lemma {:induction false} LinkedAccountsTell(links: seq<Link>, partner: nat)
    ensures LinkedAccounts(links, partner) == [] <==> forall j :: 0 <= j < |links| ==> !IsCapital(links[j], partner)
    ensures |LinkedAccounts(links, partner)| == 1 <==> HasOneCapital(links, partner)
    ensures forall j :: OnlyCapital(links, partner, j) ==> LinkedAccounts(links, partner) == [links[j].account]
  {
    if links != [] {
      var n := |links| - 1;
      var before := links[..n];
      LinkedAccountsTell(before, partner);
      assert IsCapital(links[n], partner) <==> links[n].partner == partner && links[n].role == Contribution;
      hide IsCapital;
      if IsCapital(links[n], partner) {
        if LinkedAccounts(before, partner) == [] {
          assert OnlyCapital(links, partner, n);
        } else {
          var k :| 0 <= k < n && IsCapital(before[k], partner);
          assert links[k] == before[k];
        }
      } else {
        forall j ensures OnlyCapital(links, partner, j) <==> OnlyCapital(before, partner, j) {
          assert forall k :: 0 <= k < n ==> before[k] == links[k];
        }
      }
    }
  }

  /** Where the shares go: to the account of each partner's one link, and nowhere if a partner has none or several. */
  lemma {:induction false} TargetsAre(books: Books, partners: seq<nat>)
    ensures CapitalTargets(books, partners).Done? <==> forall p :: p in partners ==> HasOneCapital(books.links, p)
    ensures CapitalTargets(books, partners).Done? ==>
              && |CapitalTargets(books, partners).value| == |partners|
              && forall i, j :: 0 <= i < |partners| && OnlyCapital(books.links, partners[i], j) ==>
                   CapitalTargets(books, partners).value[i] == books.links[j].account
    ensures CapitalTargets(books, partners).Refused? ==>
              exists i :: 0 <= i < |partners| && FirstWithout(books.links, partners, i)
                          && CapitalTargets(books, partners).error == WhyNoCapital(books.links, partners[i])
  {
    if partners != [] {
      hide OnlyCapital, HasOneCapital, IsCapital, LinkedAccounts, FirstWithout, WhyNoCapital;
      var n := |partners| - 1;
      TargetsAre(books, partners[..n]);
      LinkedAccountsTell(books.links, partners[n]);
      assert partners == partners[..n] + [partners[n]];
      assert OneOrWhy(books.links, partners[n], LinkedAccounts(books.links, partners[n])) by {
        WhyNotOne(books.links, partners[n]);
      }
      FirstWithoutSnoc(books.links, partners[..n], partners[n]);
    }
  }

  /** What a partner's links say of where his capital is. */
  ghost predicate OneOrWhy(links: seq<Link>, partner: nat, mine: seq<AccountId>) {
    && (HasOneCapital(links, partner) <==> |mine| == 1)
    && (!HasOneCapital(links, partner) ==>
          WhyNoCapital(links, partner) == if mine == [] then PartnerHasNoCapitalAccount else PartnerCapitalIsAmbiguous)
  }

  lemma WhyNotOne(links: seq<Link>, partner: nat)
    ensures OneOrWhy(links, partner, LinkedAccounts(links, partner))
  {
    LinkedAccountsTell(links, partner);
    hide LinkedAccounts, HasOneCapital, IsCapital, OnlyCapital;
  }

  lemma FirstWithoutSnoc(links: seq<Link>, partners: seq<nat>, last: nat)
    ensures forall i :: FirstWithout(links, partners, i) ==> FirstWithout(links, partners + [last], i)
    ensures !HasOneCapital(links, last) && (forall p :: p in partners ==> HasOneCapital(links, p)) ==>
              FirstWithout(links, partners + [last], |partners|)
  {
    hide HasOneCapital;
    var more := partners + [last];
    assert forall h :: 0 <= h < |partners| ==> more[h] == partners[h] && partners[h] in partners;
  }

  /** The first partner who has not just one capital account. */
  ghost predicate FirstWithout(links: seq<Link>, partners: seq<nat>, i: int) {
    && 0 <= i < |partners| && !HasOneCapital(links, partners[i])
    && forall h :: 0 <= h < i ==> HasOneCapital(links, partners[h])
  }

  ghost function WhyNoCapital(links: seq<Link>, partner: nat): Error {
    if exists j :: 0 <= j < |links| && IsCapital(links[j], partner) then PartnerCapitalIsAmbiguous
    else PartnerHasNoCapitalAccount
  }

  /** The shares are accepted when it is a partnership with partners in the year, each has just one capital account, and
      the split adds back to the result. Each partner then gets, on that account, what the split gives him. */
  lemma SharesAre(books: Books, year: int, net: Cents)
    requires Proper(books)
    ensures PartnerShares(books, year, net).Done?
       <==> && !books.soleProprietor && books.partners(year) != []
            && (forall p :: p in books.partners(year) ==> HasOneCapital(books.links, p))
            && Sum(books.split(year, net), (c: Cents) => c) == net
    ensures PartnerShares(books, year, net).Done? ==>
              && |PartnerShares(books, year, net).value| == |books.partners(year)|
              && forall i, j :: 0 <= i < |books.partners(year)|
                                && OnlyCapital(books.links, books.partners(year)[i], j) ==>
                   PartnerShares(books, year, net).value[i] == Share(books.links[j].account, books.split(year, net)[i])
  {
    TargetsAre(books, books.partners(year));
    hide OnlyCapital, HasOneCapital, CapitalTargets;
  }

  /** Why they are refused, when they are. */
  lemma SharesRefused(books: Books, year: int, net: Cents)
    requires PartnerShares(books, year, net).Refused?
    ensures var error, partners := PartnerShares(books, year, net).error, books.partners(year);
            && (books.soleProprietor ==> error == NotAPartnership)
            && (!books.soleProprietor && partners == [] ==> error == NoPartnersInYear)
            && (!books.soleProprietor ==>
                  forall i :: FirstWithout(books.links, partners, i) ==>
                                error == WhyNoCapital(books.links, partners[i]))
            && (!books.soleProprietor && partners != []
                && (forall p :: p in partners ==> HasOneCapital(books.links, p)) ==>
                  error == SharesDoNotTotal)
  {
    var partners := books.partners(year);
    TargetsAre(books, partners);
    hide CapitalTargets, HasOneCapital, WhyNoCapital;
    forall i, k | FirstWithout(books.links, partners, i) && FirstWithout(books.links, partners, k) ensures i == k {
      assert !(i < k) && !(k < i);
    }
    forall i | FirstWithout(books.links, partners, i) ensures partners[i] in partners {
    }
  }

  /** Accepted shares add back to the result, and go to linked capital accounts. */
  lemma SharesAddBack(books: Books, year: int, net: Cents)
    requires Proper(books)
    requires PartnerShares(books, year, net).Done?
    ensures ShareTotal(PartnerShares(books, year, net).value) == net
    ensures forall x :: x in PartnerShares(books, year, net).value ==>
              exists l :: l in books.links && l.role == Contribution && l.account == x.account
  {
    var cents := books.split(year, net);
    var shares := PartnerShares(books, year, net).value;
    TargetsAnswerEachPartner(books, books.partners(year));
    SharesSum(shares, cents);
    forall x | x in shares ensures exists l :: l in books.links && l.role == Contribution && l.account == x.account {
      assert x.account in CapitalTargets(books, books.partners(year)).value;
    }
  }

  lemma {:induction false} SharesSum(shares: seq<Share>, cents: seq<Cents>)
    requires |shares| == |cents|
    requires forall i :: 0 <= i < |shares| ==> shares[i].cents == cents[i]
    ensures ShareTotal(shares) == Sum(cents, (c: Cents) => c)
  {
    if shares != [] {
      SharesSum(shares[..|shares| - 1], cents[..|cents| - 1]);
    }
  }

  /** The allocation balances, has two lines, and gives each account minus its share. */
  lemma AllocationIsSound(books: Books, year: int, date: Date, yearAccount: AccountId, net: Cents, shares: seq<Share>)
    requires ShareTotal(shares) == net != 0
    ensures Sound(Posting(AllocationPost(books, year, date, yearAccount, net, shares)))
    ensures forall a :: On(AllocationPost(books, year, date, yearAccount, net, shares).lines, a)
              == (if a == yearAccount then net else 0) - ShareOf(shares, a)
  {
    var line := Line(yearAccount, net, books.currency);
    var rest := ShareLines(shares, books.currency);
    ShareLinesAddUp(shares, books.currency);
    TotalConcat([line], rest);
    TotalOne(line);
    forall a ensures On([line] + rest, a) == LineOn(line, a) + On(rest, a) {
      OnConcat([line], rest, a);
      OnOne(line, a);
    }
  }
}
