/** The text that stands for an item list when settlements are pooled, and what it tells apart. */
module ItemSignatures {
  import opened Sorting
  import opened Texts
  import opened AmazonOrders

  const UNIT := '\U{1f}'
  const RECORD := '\U{1e}'

  function Render(i: Item): string {
    i.title + [UNIT] + Decimal(i.cents)
  }

  function Parts(items: seq<Item>): (parts: seq<string>)
    ensures |parts| == |items| && forall k :: 0 <= k < |items| ==> parts[k] == Render(items[k])
  {
    seq(|items|, k requires 0 <= k < |items| => Render(items[k]))
  }

  function Join(parts: seq<string>): string {
    if parts == [] then "" else if |parts| == 1 then parts[0] else parts[0] + [RECORD] + Join(parts[1..])
  }

  /** `item_signature`. */
  function Signature(items: seq<Item>): string {
    Join(SortBy(Parts(items), LexLe))
  }

  /** A title made of one item's text, a record separator and another title, in the order sorting keeps: what
      it takes for one item to pass for two. */
  ghost predicate Forged(i: Item) {
    exists title, cents, rest ::
      i.title == Render(Item(title, cents)) + [RECORD] + rest
      && LexLe(Render(Item(title, cents)), Render(Item(rest, i.cents)))
  }

  ghost predicate Genuine(items: seq<Item>) {
    forall i :: i in items ==> !Forged(i)
  }

  /** A title without both separators is nobody's forgery. */
  lemma ForgeriesHoldBoth(i: Item)
    requires Forged(i)
    ensures UNIT in i.title && RECORD in i.title
  {
    var title, cents, rest :| i.title == Render(Item(title, cents)) + [RECORD] + rest;
    HoldsBoth(Item(title, cents), rest);
  }

  lemma HoldsBoth(i: Item, rest: string)
    ensures UNIT in Render(i) + [RECORD] + rest && RECORD in Render(i) + [RECORD] + rest
  {
    var text := Render(i) + [RECORD] + rest;
    assert text[|i.title|] == UNIT && text[|Render(i)|] == RECORD;
  }

  // ------------------------------------------------------------------ one item's text

  lemma DecimalIsClean(n: int)
    ensures UNIT !in Decimal(n) && RECORD !in Decimal(n) && Decimal(n) != ""
  {
    var digits := Digits(Magnitude(n));
    forall c | c in Decimal(n) ensures c == '-' || IsDigit(c) {
      assert c in digits || c == '-';
    }
  }

  lemma NoSeparatorAfterTitle(i: Item)
    ensures Render(i)[|i.title|] == UNIT
    ensures forall k :: |i.title| < k < |Render(i)| ==> Render(i)[k] != UNIT && Render(i)[k] != RECORD
  {
    DecimalIsClean(i.cents);
    assert forall k :: |i.title| < k < |Render(i)| ==> Render(i)[k] == Decimal(i.cents)[k - |i.title| - 1];
  }

  /** The last unit separator ends the title, whatever the title holds. */
  lemma RenderTells(a: Item, b: Item)
    requires Render(a) == Render(b)
    ensures a == b
  {
    NoSeparatorAfterTitle(a);
    NoSeparatorAfterTitle(b);
    assert Render(a)[..|a.title|] == a.title && Render(b)[..|b.title|] == b.title;
    assert Render(a)[|a.title| + 1..] == Decimal(a.cents) && Render(b)[|b.title| + 1..] == Decimal(b.cents);
    DecimalsDiffer(a.cents, b.cents);
  }

  ghost predicate Rendered(p: string) {
    exists i :: p == Render(i)
  }

  /** What follows a record separator in an item's text is the text of an item at the same price. */
  lemma RestIsRendered(i: Item, first: string, rest: string)
    requires Render(i) == first + [RECORD] + rest
    ensures |first| < |i.title| && i.title == first + [RECORD] + i.title[|first| + 1..]
    ensures rest == Render(Item(i.title[|first| + 1..], i.cents))
  {
    NoSeparatorAfterTitle(i);
    assert Render(i)[|first|] == RECORD;
    assert Render(i)[..|first|] == first == i.title[..|first|];
    assert rest == Render(i)[|first| + 1..];
  }

  /** Text that is no two items' texts, in order. */
  ghost predicate Solid(p: string) {
    forall first, rest :: p == first + [RECORD] + rest && Rendered(first) && Rendered(rest) ==> !LexLe(first, rest)
  }

  lemma GenuineIsSolid(i: Item)
    requires !Forged(i)
    ensures Solid(Render(i))
  {
    forall first, rest | Render(i) == first + [RECORD] + rest && Rendered(first) ensures !LexLe(first, rest) {
      RestIsRendered(i, first, rest);
      var x :| first == Render(x);
      assert x == Item(x.title, x.cents);
    }
  }

  lemma RenderedRest(p: string, first: string, rest: string)
    requires Rendered(p) && p == first + [RECORD] + rest
    ensures Rendered(rest)
  {
    var i :| p == Render(i);
    RestIsRendered(i, first, rest);
  }

  // ------------------------------------------------------------------ taking a joined text apart

  lemma LexIsAnOrder()
    ensures TotalPreorder(LexLe) && Antisymmetric(LexLe)
  {
    forall a, b ensures LexLe(a, b) || LexLe(b, a) { LexTotal(a, b); }
    forall a, b | LexLe(a, b) && LexLe(b, a) ensures a == b { LexTotal(a, b); }
    forall a, b, c | LexLe(a, b) && LexLe(b, c) ensures LexLe(a, c) { LexTransitive(a, b, c); }
  }

  lemma {:induction false} PrefixIsLess(a: string, more: string)
    ensures LexLe(a, a + more)
  {
    if a != "" {
      assert (a + more)[1..] == a[1..] + more;
      PrefixIsLess(a[1..], more);
    }
  }

  ghost predicate Readable(parts: seq<string>) {
    && Sorted(parts, LexLe)
    && forall p :: p in parts ==> Rendered(p) && Solid(p)
  }

  lemma ReadableRest(parts: seq<string>)
    requires Readable(parts) && parts != []
    ensures Readable(parts[1..]) && Rendered(parts[0]) && Solid(parts[0])
    ensures Join(parts) == parts[0] + Tail(parts[1..])
  {
    hide Rendered, Solid, LexLe;
    FirstThenTail(parts);
    hide Join, Tail;
    assert parts[0] in parts && forall p :: p in parts[1..] ==> p in parts;
    var rest := parts[1..];
    forall i, j | 0 <= i < j < |rest| ensures LexLe(rest[i], rest[j]) {
      assert rest[i] == parts[i + 1] && rest[j] == parts[j + 1];
    }
  }

  lemma FirstThenTail(parts: seq<string>)
    requires parts != []
    ensures Join(parts) == parts[0] + Tail(parts[1..])
  {
    assert parts[0] + "" == parts[0];
  }

  /** What follows a part in a joined text. */
  function Tail(parts: seq<string>): string {
    if parts == [] then "" else [RECORD] + Join(parts)
  }

  /** Of two parts that begin one text, the shorter is followed by a separator inside the longer. */
  lemma ShorterIsCut(p: string, more: seq<string>, q: string, others: seq<string>)
    requires p + Tail(more) == q + Tail(others) && |p| < |q|
    ensures more != [] && q == p + [RECORD] + q[|p| + 1..]
    ensures Join(more) == q[|p| + 1..] + Tail(others)
  {
    hide Join;
    assert more != [] by {
      assert |p + Tail(more)| == |q + Tail(others)|;
    }
    hide Tail;
    TailOpens(more);
    CutAt(p, Tail(more), q, Tail(others));
    assert Tail(more)[0] == RECORD;
  }

  lemma TailOpens(parts: seq<string>)
    requires parts != []
    ensures Tail(parts) == [RECORD] + Join(parts) && Tail(parts)[1..] == Join(parts) && Tail(parts)[0] == RECORD
  {
    hide Join;
  }

  /** Of two beginnings of one text, the longer is the shorter and what follows it. */
  lemma CutAt(p: string, more: string, q: string, others: string)
    requires p + more == q + others && |p| < |q|
    ensures more != "" && q == p + [more[0]] + q[|p| + 1..] && more[1..] == q[|p| + 1..] + others
  {
    var text := p + more;
    assert text[..|p|] == p && text[..|q|] == q && text[|p|..] == more && text[|q|..] == others;
    assert q[..|p|] == p && q[|p|..] + others == more;
    assert q == q[..|p|] + [q[|p|]] + q[|p| + 1..];
    assert more[1..] == text[|p| + 1..];
  }

  /** One list of parts has just ended a part where another is still inside one, and what is left of that one
      is less than the part ended: this never comes out even. */
  lemma {:induction false} NeverEven(last: string, rest: seq<string>, left: string, whole: string, others: seq<string>)
    requires rest != [] && Join(rest) == left + Tail(others) && Rendered(left)
    requires Readable(rest) && Readable(others)
    requires LexLe(last, rest[0]) && (others != [] ==> LexLe(whole, others[0]))
    requires !LexLe(last, left) && !LexLe(whole, left)
    ensures false
    decreases |rest| + |others|
  {
    hide *;
    var next := rest[0];
    ReadableRest(rest);
    LexIsAnOrder();
    StillAbove(last, next, left);
    ShorterIsLess(next, Tail(rest[1..]), left, Tail(others));
    ShorterIsCut(left, others, next, rest[1..]);
    var w := next[|left| + 1..];
    RenderedRest(next, left, w);
    SolidIsUncut(next, left, w);
    AboveBoth(next, left, w);
    AboveBoth(whole, left, w);
    RestFollows(rest);
    NeverEven(whole, others, w, next, rest[1..]);
  }

  /** Of two beginnings of one text, the shorter comes first. */
  lemma ShorterIsLess(p: string, more: string, q: string, others: string)
    requires p + more == q + others
    ensures |p| <= |q| ==> LexLe(p, q)
  {
    if |p| <= |q| {
      assert (q + others)[..|p|] == q[..|p|] && (p + more)[..|p|] == p;
      assert q == p + q[|p|..];
      PrefixIsLess(p, q[|p|..]);
    }
  }

  lemma StillAbove(low: string, high: string, x: string)
    requires LexLe(low, high) && !LexLe(low, x)
    ensures !LexLe(high, x)
  {
    if LexLe(high, x) {
      LexTransitive(low, high, x);
    }
  }

  lemma AboveBoth(a: string, b: string, c: string)
    requires !LexLe(a, b) && !LexLe(b, c)
    ensures !LexLe(a, c)
  {
    LexTotal(b, c);
    if LexLe(a, c) {
      LexTransitive(a, c, b);
    }
  }

  lemma SolidIsUncut(p: string, first: string, rest: string)
    requires Solid(p) && p == first + [RECORD] + rest && Rendered(first) && Rendered(rest)
    ensures !LexLe(first, rest)
  {
  }

  lemma RestFollows(parts: seq<string>)
    requires Readable(parts) && parts != []
    ensures |parts| > 1 ==> LexLe(parts[0], parts[1..][0])
  {
  }

  /** A cut of a part is uneven. */
  lemma CutIsUneven(a: seq<string>, b: seq<string>)
    requires Readable(a) && Readable(b) && a != [] && b != [] && Join(a) == Join(b)
    ensures |b[0]| <= |a[0]|
  {
    hide *;
    ReadableRest(a);
    ReadableRest(b);
    if |a[0]| < |b[0]| {
      ShorterIsCut(a[0], a[1..], b[0], b[1..]);
      var w := b[0][|a[0]| + 1..];
      RenderedRest(b[0], a[0], w);
      SolidIsUncut(b[0], a[0], w);
      PrefixIsLess(a[0], [RECORD] + w);
      assert b[0] == a[0] + ([RECORD] + w);
      StillAbove(a[0], b[0], w);
      RestFollows(a);
      RestFollows(b);
      NeverEven(a[0], a[1..], w, b[0], b[1..]);
    }
  }

  lemma NothingJoined(parts: seq<string>)
    requires Readable(parts)
    ensures Join(parts) == "" <==> parts == []
  {
    if parts != [] {
      assert parts[0] in parts;
      var i :| parts[0] == Render(i);
      assert parts[0][|i.title|] == UNIT;
    }
  }

  /** A joined text has one reading. */
  lemma {:induction false} JoinTells(a: seq<string>, b: seq<string>)
    requires Readable(a) && Readable(b) && Join(a) == Join(b)
    ensures a == b
  {
    hide *;
    NothingJoined(a);
    NothingJoined(b);
    if a != [] && b != [] {
      CutIsUneven(a, b);
      CutIsUneven(b, a);
      ReadableRest(a);
      ReadableRest(b);
      assert (a[0] + Tail(a[1..]))[..|a[0]|] == a[0] && (b[0] + Tail(b[1..]))[..|b[0]|] == b[0];
      assert (a[0] + Tail(a[1..]))[|a[0]|..] == Tail(a[1..]) && (b[0] + Tail(b[1..]))[|b[0]|..] == Tail(b[1..]);
      TailTells(a[1..], b[1..]);
      JoinTells(a[1..], b[1..]);
      assert a == [a[0]] + a[1..] && b == [b[0]] + b[1..];
    }
  }

  lemma TailTells(a: seq<string>, b: seq<string>)
    requires Tail(a) == Tail(b)
    ensures Join(a) == Join(b)
  {
    hide Join;
    if a != [] && b != [] {
      assert Tail(a)[1..] == Join(a) && Tail(b)[1..] == Join(b);
    } else {
      assert a == [] && b == [];
    }
  }

  // ------------------------------------------------------------------ lists

  lemma PartsAreReadable(items: seq<Item>)
    requires Genuine(items)
    ensures Readable(SortBy(Parts(items), LexLe))
  {
    LexIsAnOrder();
    SortSorts(Parts(items), LexLe);
    SortPermutes(Parts(items), LexLe);
    SameElements(SortBy(Parts(items), LexLe), Parts(items));
    hide Forged, Solid, Render;
    forall p | p in Parts(items) ensures Rendered(p) && Solid(p) {
      var k :| 0 <= k < |items| && Parts(items)[k] == p;
      assert items[k] in items;
      GenuineIsSolid(items[k]);
    }
  }

  lemma PartsConcat(a: seq<Item>, b: seq<Item>)
    ensures Parts(a + b) == Parts(a) + Parts(b)
  {
  }

  lemma PartsOne(i: Item)
    ensures Parts([i]) == [Render(i)]
  {
  }

  /** Rendering keeps apart what is apart. */
  lemma {:induction false} PartsCount(items: seq<Item>, i: Item)
    ensures multiset(Parts(items))[Render(i)] == multiset(items)[i]
  {
    hide Render, Parts;
    if items == [] {
      assert |Parts(items)| == 0;
    } else {
      var n := |items| - 1;
      PartsCount(items[..n], i);
      assert items == items[..n] + [items[n]];
      PartsConcat(items[..n], [items[n]]);
      PartsOne(items[n]);
      if Render(i) == Render(items[n]) {
        RenderTells(i, items[n]);
      }
    }
  }

  lemma SameParts(a: seq<Item>, b: seq<Item>)
    ensures multiset(Parts(a)) == multiset(Parts(b)) <==> multiset(a) == multiset(b)
  {
    forall i
      ensures multiset(Parts(a))[Render(i)] == multiset(a)[i] && multiset(Parts(b))[Render(i)] == multiset(b)[i]
    {
      PartsCount(a, i);
      PartsCount(b, i);
    }
    if multiset(a) == multiset(b) {
      forall p ensures multiset(Parts(a))[p] == multiset(Parts(b))[p] {
        if exists i :: p == Render(i) {
          var i :| p == Render(i);
        } else {
          NoPart(a, p);
          NoPart(b, p);
        }
      }
    }
  }

  lemma NoPart(items: seq<Item>, p: string)
    requires forall i :: p != Render(i)
    ensures multiset(Parts(items))[p] == 0
  {
    assert forall k :: 0 <= k < |items| ==> Parts(items)[k] != p;
    assert p !in Parts(items);
  }

  /** Two settlements have one signature exactly when they list the same items, in whatever order, as long
      as no item is a forgery. */
  lemma SignatureTellsItems(a: seq<Item>, b: seq<Item>)
    requires Genuine(a) && Genuine(b)
    ensures Signature(a) == Signature(b) <==> multiset(a) == multiset(b)
  {
    LexIsAnOrder();
    SortTells(Parts(a), Parts(b), LexLe);
    SameParts(a, b);
    PartsAreReadable(a);
    PartsAreReadable(b);
    hide Readable, Parts, Genuine;
    if Signature(a) == Signature(b) {
      JoinTells(SortBy(Parts(a), LexLe), SortBy(Parts(b), LexLe));
    }
  }

  lemma OneSigned(i: Item)
    ensures Signature([i]) == Render(i)
  {
    PartsOne(i);
    assert [Render(i)][..0] == [];
  }

  lemma TwoSigned(i: Item, j: Item)
    requires LexLe(Render(i), Render(j))
    ensures Signature([i, j]) == Render(i) + [RECORD] + Render(j)
  {
    var two := Parts([i, j]);
    assert two == [Render(i), Render(j)];
    assert two[..1] == [two[0]] && two[..1][..0] == [] && SortBy(two[..1], LexLe) == two[..1];
    assert SortBy(two, LexLe) == two;
    JoinedPair(two[0], two[1]);
    assert two == [two[0], two[1]];
  }

  lemma JoinedPair(p: string, q: string)
    ensures Join([p, q]) == p + [RECORD] + q
  {
    assert [p, q][1..] == [q];
  }

  /** One item can pass for another list exactly when it is a forgery. */
  lemma ForgeriesCollide(i: Item)
    ensures (exists items :: multiset(items) != multiset([i]) && Signature(items) == Signature([i])) <==> Forged(i)
  {
    if Forged(i) {
      var title, cents, rest :|
        i.title == Render(Item(title, cents)) + [RECORD] + rest
        && LexLe(Render(Item(title, cents)), Render(Item(rest, i.cents)));
      ForgeryCollides(i, Item(title, cents), Item(rest, i.cents));
    }
    forall items | multiset(items) != multiset([i]) && Signature(items) == Signature([i]) ensures Forged(i) {
      CollisionIsForged(i, items);
    }
  }

  lemma ForgeryCollides(i: Item, first: Item, second: Item)
    requires i.title == Render(first) + [RECORD] + second.title && second.cents == i.cents
    requires LexLe(Render(first), Render(second))
    ensures Signature([first, second]) == Signature([i]) && multiset([first, second]) != multiset([i])
  {
    OneSigned(i);
    TwoSigned(first, second);
    ForgeryReads(i, first, second);
    assert |multiset([first, second])| == 2 && |multiset([i])| == 1;
  }

  lemma ForgeryReads(i: Item, first: Item, second: Item)
    requires i.title == Render(first) + [RECORD] + second.title && second.cents == i.cents
    ensures Render(i) == Render(first) + [RECORD] + Render(second)
  {
    hide Decimal;
    var text := Render(first);
    hide Render;
    assert Render(i) == text + [RECORD] + Render(second) by { RenderAfter(i, text + [RECORD], second); }
  }

  lemma RenderAfter(i: Item, before: string, second: Item)
    requires i.title == before + second.title && second.cents == i.cents
    ensures Render(i) == before + Render(second)
  {
    hide Decimal;
  }

  lemma CollisionIsForged(i: Item, items: seq<Item>)
    requires multiset(items) != multiset([i]) && Signature(items) == Signature([i])
    ensures Forged(i)
  {
    OneSigned(i);
    hide Signature;
    if |items| == 1 {
      assert items == [items[0]];
      OneSigned(items[0]);
      RenderTells(i, items[0]);
    } else {
      var first, rest := SignedFirst(items);
      hide Render, Join, SortBy, LexLe;
      RestIsRendered(i, Render(first), rest);
      assert Render(Item(first.title, first.cents)) == Render(first);
    }
  }

  /** Of many items, or none, the signature is not one item's text, unless that text holds another's. */
  lemma SignedFirst(items: seq<Item>) returns (first: Item, rest: string)
    requires |items| != 1 && exists i :: Signature(items) == Render(i)
    ensures Signature(items) == Render(first) + [RECORD] + rest && LexLe(Render(first), rest)
  {
    var parts := SortBy(Parts(items), LexLe);
    SortedParts(items);
    assert items != [] by {
      var i :| Signature(items) == Render(i);
      assert Render(i) != "";
      assert parts == [] ==> Join(parts) == "";
    }
    hide SortBy, LexLe, Render;
    assert parts[0] in parts;
    var k :| 0 <= k < |items| && Parts(items)[k] == parts[0];
    first, rest := items[k], Join(parts[1..]);
    JoinBegins(parts[1..]);
    LexTransitive(parts[0], parts[1], rest);
  }

  lemma SortedParts(items: seq<Item>)
    ensures var parts := SortBy(Parts(items), LexLe);
            && |parts| == |items| && (|parts| > 1 ==> LexLe(parts[0], parts[1]))
            && forall p :: p in parts <==> p in Parts(items)
  {
    LexIsAnOrder();
    SortSorts(Parts(items), LexLe);
    SortPermutes(Parts(items), LexLe);
    SameElements(SortBy(Parts(items), LexLe), Parts(items));
  }

  lemma JoinBegins(parts: seq<string>)
    requires parts != []
    ensures LexLe(parts[0], Join(parts))
  {
    PrefixIsLess(parts[0], Tail(parts[1..]));
    assert Join(parts) == parts[0] + Tail(parts[1..]);
  }
}
