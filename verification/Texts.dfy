/** Text as the planners compare and write it: decimal numerals, and the order of strings. */
module Texts {
  import opened Options

  predicate IsDigit(c: char) {
    '0' <= c <= '9'
  }

  predicate AllDigits(s: string) {
    forall i :: 0 <= i < |s| ==> IsDigit(s[i])
  }

  function ValueOf(c: char): (n: nat)
    requires IsDigit(c)
    ensures n < 10
  {
    (c - '0') as nat
  }

  function DigitOf(n: nat): (c: char)
    requires n < 10
    ensures IsDigit(c) && ValueOf(c) == n
  {
    '0' + n as char
  }

  /** A number without a sign, no leading zeros. */
  function Digits(n: nat): (s: string)
    ensures s != "" && AllDigits(s)
  {
    if n < 10 then [DigitOf(n)] else Digits(n / 10) + [DigitOf(n % 10)]
  }

  function Value(s: string): nat
    requires AllDigits(s)
  {
    if s == "" then 0 else 10 * Value(s[..|s| - 1]) + ValueOf(s[|s| - 1])
  }

  lemma ValueSnoc(s: string, c: char)
    requires AllDigits(s) && IsDigit(c)
    ensures AllDigits(s + [c]) && Value(s + [c]) == 10 * Value(s) + ValueOf(c)
  {
    assert (s + [c])[..|s|] == s;
  }

  lemma {:induction false} DigitsSayTheirValue(n: nat)
    ensures Value(Digits(n)) == n
  {
    if n < 10 {
      assert Digits(n)[..0] == "";
    } else {
      DigitsSayTheirValue(n / 10);
      assert Digits(n)[..|Digits(n)| - 1] == Digits(n / 10);
    }
  }

  /** No number is written with a leading zero. */
  lemma {:induction false} NoLeadingZero(n: nat)
    requires 0 < n
    ensures Digits(n)[0] != '0'
  {
    if 10 <= n {
      NoLeadingZero(n / 10);
    }
  }

  function Magnitude(n: int): (m: int)
    ensures 0 <= m
  {
    if n < 0 then -n else n
  }

  function Decimal(n: int): string {
    if n < 0 then "-" + Digits(-n) else Digits(n)
  }

  lemma DecimalsDiffer(m: int, n: int)
    requires Decimal(m) == Decimal(n)
    ensures m == n
  {
    SignShows(m);
    SignShows(n);
    DigitsSayTheirValue(Magnitude(m));
    DigitsSayTheirValue(Magnitude(n));
  }

  lemma SignShows(n: int)
    ensures Decimal(n) != "" && (Decimal(n)[0] == '-' <==> n < 0)
    ensures (if n < 0 then Decimal(n)[1..] else Decimal(n)) == Digits(Magnitude(n))
  {
    assert IsDigit(Digits(Magnitude(n))[0]);
    hide Digits;
    assert n < 0 ==> ("-" + Digits(-n))[1..] == Digits(-n);
  }

  // ------------------------------------------------------------------ looking inside text

  /** The place of the first occurrence of a character. */
  function FirstOf(s: string, c: char): (n: nat)
    ensures n <= |s| && c !in s[..n] && (n < |s| ==> s[n] == c)
  {
    if s == "" || s[0] == c then 0 else 1 + FirstOf(s[1..], c)
  }

  lemma {:induction false} FirstAfter(a: string, b: string, c: char)
    requires c !in a
    ensures FirstOf(a + [c] + b, c) == |a|
  {
    if a != "" {
      assert (a + [c] + b)[1..] == a[1..] + [c] + b;
      FirstAfter(a[1..], b, c);
    }
  }

  predicate IsSpace(c: char) {
    c == ' ' || '\t' <= c <= '\r' || c == '\U{85}' || c == '\U{a0}'
  }

  function TrimStart(s: string): string {
    if s != "" && IsSpace(s[0]) then TrimStart(s[1..]) else s
  }

  function TrimEnd(s: string): string {
    if s != "" && IsSpace(s[|s| - 1]) then TrimEnd(s[..|s| - 1]) else s
  }

  /** Nothing is left once the spaces at both ends are gone. */
  predicate Blank(s: string) {
    TrimEnd(TrimStart(s)) == ""
  }

  lemma {:induction false} StartIsTrimmed(s: string)
    ensures TrimStart(s) != "" ==> !IsSpace(TrimStart(s)[0])
  {
    if s != "" && IsSpace(s[0]) {
      StartIsTrimmed(s[1..]);
    }
  }

  lemma {:induction false} EndIsTrimmed(s: string)
    ensures TrimEnd(s) != "" ==> !IsSpace(TrimEnd(s)[|TrimEnd(s)| - 1]) && s != "" && TrimEnd(s)[0] == s[0]
  {
    if s != "" && IsSpace(s[|s| - 1]) {
      EndIsTrimmed(s[..|s| - 1]);
    }
  }

  predicate AllSpaces(s: string) {
    forall c :: c in s ==> IsSpace(c)
  }

  /** The spaces there are. */
  lemma SpacesAre(c: char)
    ensures IsSpace(c) <==> c in {'\U{9}', '\U{a}', '\U{b}', '\U{c}', '\U{d}', '\U{20}', '\U{85}', '\U{a0}'}
  {
  }

  lemma {:induction false} StartTaken(s: string) returns (before: string)
    ensures s == before + TrimStart(s) && AllSpaces(before)
  {
    before := "";
    if s != "" && IsSpace(s[0]) {
      var rest := StartTaken(s[1..]);
      before := [s[0]] + rest;
    }
  }

  lemma {:induction false} EndTaken(s: string) returns (after: string)
    ensures s == TrimEnd(s) + after && AllSpaces(after)
  {
    after := "";
    if s != "" && IsSpace(s[|s| - 1]) {
      var rest := EndTaken(s[..|s| - 1]);
      after := rest + [s[|s| - 1]];
    }
  }

  /** Trimming takes spaces off both ends, and all there are. */
  lemma TrimmingTakesSpaces(s: string) returns (before: string, after: string)
    ensures var t := TrimEnd(TrimStart(s));
            && s == before + t + after && AllSpaces(before) && AllSpaces(after)
            && (t != "" ==> !IsSpace(t[0]) && !IsSpace(t[|t| - 1]))
  {
    before := StartTaken(s);
    after := EndTaken(TrimStart(s));
    StartIsTrimmed(s);
    EndIsTrimmed(TrimStart(s));
  }

  /** Spaces around a text that has none at its ends are what is trimmed off. */
  lemma {:induction false} SpacesAreTrimmed(before: string, t: string, after: string)
    requires AllSpaces(before) && AllSpaces(after) && (t != "" ==> !IsSpace(t[0]) && !IsSpace(t[|t| - 1]))
    ensures TrimEnd(TrimStart(before + t + after)) == t
  {
    var s := before + t + after;
    if before != "" {
      assert s[0] == before[0] && s[1..] == before[1..] + t + after;
      SpacesAreTrimmed(before[1..], t, after);
    } else if t == "" {
      assert s == after;
      BlankIsTrimmed(after);
    } else {
      assert s == t + after && s[0] == t[0];
      EndIsCut(t, after);
    }
  }

  lemma {:induction false} BlankIsTrimmed(s: string)
    requires AllSpaces(s)
    ensures TrimStart(s) == ""
  {
    if s != "" {
      BlankIsTrimmed(s[1..]);
    }
  }

  lemma {:induction false} EndIsCut(t: string, after: string)
    requires t != "" && !IsSpace(t[|t| - 1]) && AllSpaces(after)
    ensures TrimEnd(t + after) == t
  {
    if after == "" {
      assert t + after == t;
    } else {
      var n := |after| - 1;
      assert (t + after)[..|t| + n] == t + after[..n];
      EndIsCut(t, after[..n]);
    }
  }

  /** A text is blank when it holds nothing but spaces. */
  lemma BlankMeans(s: string)
    ensures Blank(s) <==> AllSpaces(s)
  {
    var before, after := TrimmingTakesSpaces(s);
    if AllSpaces(s) {
      BlankIsTrimmed(s);
    }
  }

  /** What is left after trimming is not blank. */
  lemma TrimmedIsNotBlank(s: string)
    requires TrimEnd(TrimStart(s)) != ""
    ensures !Blank(TrimEnd(TrimStart(s)))
  {
    StartIsTrimmed(s);
    EndIsTrimmed(TrimStart(s));
    Trimmed(TrimEnd(TrimStart(s)));
  }

  /** Text with no space at either end is left alone. */
  lemma Trimmed(s: string)
    requires s != "" && !IsSpace(s[0]) && !IsSpace(s[|s| - 1])
    ensures TrimEnd(TrimStart(s)) == s
  {
  }

  // ------------------------------------------------------------------ reading an i64

  const I64_LIMIT: int := 0x8000_0000_0000_0000

  predicate InI64(n: int) {
    -I64_LIMIT <= n < I64_LIMIT
  }

  /** `trim().parse::<i64>()`. */
  function ParseI64(s: string): (n: Option<int>)
    ensures n.Some? ==> InI64(n.value)
  {
    var t := TrimEnd(TrimStart(s));
    var digits := if t != "" && (t[0] == '-' || t[0] == '+') then t[1..] else t;
    if digits == "" || !AllDigits(digits) then None
    else
      var n: int := (if t[0] == '-' then -1 else 1) * Value(digits);
      if InI64(n) then Some(n) else None
  }

  lemma DecimalIsTrimmed(n: int)
    ensures TrimEnd(TrimStart(Decimal(n))) == Decimal(n)
  {
    var digits := Digits(Magnitude(n));
    assert IsDigit(digits[0]) && IsDigit(digits[|digits| - 1]);
    hide Digits;
    assert Decimal(n)[|Decimal(n)| - 1] == digits[|digits| - 1];
    Trimmed(Decimal(n));
  }

  /** A sign, or none. */
  predicate IsSign(sign: string) {
    sign == "" || sign == "-" || sign == "+"
  }

  /** Digits under a sign or none, spaces around them or not, are read as the number they say, if an i64 holds it. */
  lemma SignedDigitsRead(before: string, sign: string, digits: string, after: string)
    requires AllSpaces(before) && AllSpaces(after) && IsSign(sign) && digits != "" && AllDigits(digits)
    ensures var n: int := if sign == "-" then 0 - Value(digits) else Value(digits);
            ParseI64(before + sign + digits + after) == if InI64(n) then Some(n) else None
  {
    hide Value, TrimStart, TrimEnd;
    var t := sign + digits;
    SignedEnds(sign, digits);
    SpacesAreTrimmed(before, t, after);
    assert before + sign + digits + after == before + t + after;
  }

  lemma SignedEnds(sign: string, digits: string)
    requires IsSign(sign) && digits != "" && AllDigits(digits)
    ensures var t := sign + digits;
            && !IsSpace(t[0]) && !IsSpace(t[|t| - 1])
            && (if sign == "" then t == digits && IsDigit(t[0]) else t[0] == sign[0] && t[1..] == digits)
  {
    var t := sign + digits;
    assert IsDigit(digits[0]) && IsDigit(digits[|digits| - 1]);
    assert t[|t| - 1] == digits[|digits| - 1];
  }

  /** And nothing else is read. */
  lemma OnlySignedDigitsRead(s: string) returns (before: string, sign: string, digits: string, after: string)
    requires ParseI64(s).Some?
    ensures s == before + sign + digits + after && AllSpaces(before) && AllSpaces(after)
    ensures IsSign(sign) && digits != "" && AllDigits(digits)
  {
    before, after := TrimmingTakesSpaces(s);
    var t := TrimEnd(TrimStart(s));
    sign := if t != "" && (t[0] == '-' || t[0] == '+') then [t[0]] else "";
    digits := t[|sign|..];
  }

  /** A number written in decimal reads back as itself. */
  lemma DecimalReads(n: int)
    requires InI64(n)
    ensures ParseI64(Decimal(n)) == Some(n)
  {
    hide Digits, Value, TrimStart, TrimEnd;
    var digits := Digits(Magnitude(n));
    DigitsSayTheirValue(Magnitude(n));
    DecimalIsTrimmed(n);
    assert IsDigit(digits[0]);
    if n < 0 {
      assert Decimal(n)[1..] == digits;
    }
  }

  // ------------------------------------------------------------------ the order of strings

  predicate LexLe(a: string, b: string) {
    a == "" || (b != "" && (a[0] < b[0] || (a[0] == b[0] && LexLe(a[1..], b[1..]))))
  }

  lemma {:induction false} LexTotal(a: string, b: string)
    ensures LexLe(a, b) || LexLe(b, a)
    ensures LexLe(a, b) && LexLe(b, a) ==> a == b
  {
    if a != "" && b != "" {
      LexTotal(a[1..], b[1..]);
      assert a == [a[0]] + a[1..] && b == [b[0]] + b[1..];
    }
  }

  lemma {:induction false} LexTransitive(a: string, b: string, c: string)
    requires LexLe(a, b) && LexLe(b, c)
    ensures LexLe(a, c)
  {
    if a != "" && b != "" && c != "" {
      if a[0] == b[0] && b[0] == c[0] {
        LexTransitive(a[1..], b[1..], c[1..]);
      }
    }
  }

  /** One string is before another when it begins it, or holds the smaller character where they first differ. */
  lemma {:induction false} LexMeans(a: string, b: string)
    ensures LexLe(a, b) <==> exists k :: 0 <= k <= |a| && k <= |b| && a[..k] == b[..k]
                                         && (k == |a| || (k < |b| && a[k] < b[k]))
  {
    if a == "" {
      assert a[..0] == b[..0];
    } else if b != "" && a[0] == b[0] {
      LexMeans(a[1..], b[1..]);
      if k :| 0 <= k <= |a[1..]| && k <= |b[1..]| && a[1..][..k] == b[1..][..k]
              && (k == |a[1..]| || (k < |b[1..]| && a[1..][k] < b[1..][k])) {
        assert a[..k + 1] == [a[0]] + a[1..][..k] && b[..k + 1] == [b[0]] + b[1..][..k];
      }
      if k :| 0 <= k <= |a| && k <= |b| && a[..k] == b[..k] && (k == |a| || (k < |b| && a[k] < b[k])) {
        assert k != 0;
        assert a[1..][..k - 1] == a[..k][1..] && b[1..][..k - 1] == b[..k][1..];
      }
    } else if b != "" {
      assert a[..0] == b[..0];
      assert forall k :: 0 < k <= |a| && k <= |b| ==> a[..k][0] != b[..k][0];
    }
  }
}
