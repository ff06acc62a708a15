/** The command line's money: three ways to print cents and one to read them back. */
module Money {
  import opened Options
  import opened Texts

  /** `{:02}` of a number below 100. */
  function TwoDigits(n: nat): (s: string)
    requires n < 100
    ensures |s| == 2 && AllDigits(s)
  {
    [DigitOf(n / 10), DigitOf(n % 10)]
  }

  // ------------------------------------------------------------------ printing

  /** The first `n` digits of a whole number, with a comma before every group of three counted from
      the end. */
  function GroupedTo(whole: string, n: nat): string
    requires n <= |whole|
  {
    if n == 0 then ""
    else
      GroupedTo(whole, n - 1)
      + (if n - 1 > 0 && (|whole| - (n - 1)) % 3 == 0 then "," else "")
      + [whole[n - 1]]
  }

  function Dollars(cents: int): string {
    var abs := Magnitude(cents);
    var whole := Digits(abs / 100);
    (if cents < 0 then "-" else "") + "$" + GroupedTo(whole, |whole|) + "." + TwoDigits(abs % 100)
  }

  /** `cents_to_dollars`. */
  method CentsToDollars(cents: int) returns (s: string)
    ensures s == Dollars(cents)
  {
    var sign := if cents < 0 then "-" else "";
    var abs := Magnitude(cents);
    var whole := Digits(abs / 100);
    var grouped := "";
    var i := 0;
    while i < |whole|
      invariant 0 <= i <= |whole| && grouped == GroupedTo(whole, i)
    {
      if i > 0 && (|whole| - i) % 3 == 0 {
        grouped := grouped + [','];
      }
      grouped := grouped + [whole[i]];
      i := i + 1;
    }
    s := sign + "$" + grouped + "." + TwoDigits(abs % 100);
  }

  /** `format_amount`: negatives in parentheses. */
  function FormatAmount(cents: int): string {
    var abs := Magnitude(cents);
    var plain := Digits(abs / 100) + "." + TwoDigits(abs % 100);
    if cents < 0 then "(" + plain + ")" else plain
  }

  /** `show_cents`. */
  function ShowCents(cents: int): string {
    var abs := Magnitude(cents);
    (if cents < 0 then "-" else "") + Digits(abs / 100) + "." + TwoDigits(abs % 100)
  }

  // ------------------------------------------------------------------ reading

  /** Without commas and dollar signs. */
  function Bare(s: string): string {
    if s == "" then ""
    else
      var c := s[|s| - 1];
      Bare(s[..|s| - 1]) + if c == ',' || c == '$' then "" else [c]
  }

  /** A sign in front, or parentheses around. */
  function Unsigned(t: string): (bool, string) {
    if t != "" && t[0] == '-' then (true, t[1..])
    else if 2 <= |t| && t[0] == '(' && t[|t| - 1] == ')' then (true, t[1..|t| - 1])
    else (false, t)
  }

  function WholePart(t: string): string {
    t[..FirstOf(t, '.')]
  }

  function Fraction(t: string): string {
    if FirstOf(t, '.') < |t| then t[FirstOf(t, '.') + 1..] else ""
  }

  /** `{:0<2}`. */
  function Padded(fraction: string): string {
    if |fraction| == 0 then "00" else if |fraction| == 1 then fraction + "0" else fraction
  }

  /** `parse_dollars_to_cents`; None is a refusal. */
  function ParseDollars(s: string): Option<int> {
    var (negative, t) := Unsigned(Bare(TrimEnd(TrimStart(s))));
    var whole, fraction := WholePart(t), Fraction(t);
    if (whole == "" && fraction == "") || !AllDigits(whole) || !AllDigits(fraction) || 2 < |fraction| then None
    else if !InI64(Value(whole)) then None
    else
      assert AllDigits(Padded(fraction));
      var cents := Value(whole) * 100 + Value(Padded(fraction));
      if !InI64(Value(whole) * 100) || !InI64(cents) then None
      else Some(if negative then -cents else cents)
  }

  // ------------------------------------------------------------------ there and back

  /** Text of digits and a point reads back as its parts. */
  lemma PlainParts(whole: string, fraction: string)
    requires AllDigits(whole) && AllDigits(fraction)
    ensures WholePart(whole + "." + fraction) == whole && Fraction(whole + "." + fraction) == fraction
  {
    assert forall c :: c in whole ==> IsDigit(c);
    FirstAfter(whole, fraction, '.');
    var t := whole + "." + fraction;
    assert t[..|whole|] == whole && t[|whole| + 1..] == fraction;
  }

  lemma {:induction false} BareConcat(a: string, b: string)
    ensures Bare(a + b) == Bare(a) + Bare(b)
  {
    if b == "" {
      assert a + b == a;
    } else {
      BareConcat(a, b[..|b| - 1]);
      assert (a + b)[..|a| + |b| - 1] == a + b[..|b| - 1];
    }
  }

  lemma {:induction false} BareAlready(s: string)
    requires forall i :: 0 <= i < |s| ==> s[i] != ',' && s[i] != '$'
    ensures Bare(s) == s
  {
    if s != "" {
      BareAlready(s[..|s| - 1]);
    }
  }

  lemma NoSeparators()
    ensures Bare(",") == "" && Bare("$") == ""
  {
    assert [','][..0] == "" && ['$'][..0] == "";
  }

  lemma BareThree(a: string, b: string, c: string)
    ensures Bare(a + b + c) == Bare(a) + Bare(b) + Bare(c)
  {
    hide Bare;
    BareConcat(a + b, c);
    BareConcat(a, b);
  }

  lemma NextGrouped(whole: string, n: nat)
    requires 0 < n <= |whole| && AllDigits(whole)
    ensures Bare(GroupedTo(whole, n)) == Bare(GroupedTo(whole, n - 1)) + [whole[n - 1]]
  {
    var comma := if n - 1 > 0 && (|whole| - (n - 1)) % 3 == 0 then "," else "";
    assert GroupedTo(whole, n) == GroupedTo(whole, n - 1) + comma + [whole[n - 1]];
    BareDigit(whole[n - 1]);
    hide Bare, GroupedTo;
    NoSeparators();
    BareThree(GroupedTo(whole, n - 1), comma, [whole[n - 1]]);
  }

  lemma BareDigit(c: char)
    requires IsDigit(c)
    ensures Bare([c]) == [c]
  {
    BareAlready([c]);
  }

  /** Taking the commas out of a grouped number leaves the number. */
  lemma {:induction false} UngroupedIsWhole(whole: string, n: nat)
    requires n <= |whole| && AllDigits(whole)
    ensures Bare(GroupedTo(whole, n)) == whole[..n]
  {
    if n != 0 {
      hide GroupedTo, Bare;
      UngroupedIsWhole(whole, n - 1);
      NextGrouped(whole, n);
      assert whole[..n] == whole[..n - 1] + [whole[n - 1]];
    }
  }

  lemma TwoDigitsValue(n: nat)
    requires n < 100
    ensures Value(TwoDigits(n)) == n && Padded(TwoDigits(n)) == TwoDigits(n)
  {
    ValueSnoc("", DigitOf(n / 10));
    ValueSnoc([DigitOf(n / 10)], DigitOf(n % 10));
    assert "" + [DigitOf(n / 10)] == [DigitOf(n / 10)];
    assert [DigitOf(n / 10)] + [DigitOf(n % 10)] == TwoDigits(n);
  }

  /** A printed amount whose signs and separators come off as they should reads as its cents. */
  lemma PrintedReads(cents: int, s: string)
    requires InI64(cents)
    requires Unsigned(Bare(TrimEnd(TrimStart(s))))
          == (cents < 0, Digits(Magnitude(cents) / 100) + "." + TwoDigits(Magnitude(cents) % 100))
    ensures ParseDollars(s) == if cents == -I64_LIMIT then None else Some(cents)
  {
    hide Unsigned, Bare, TrimEnd, TrimStart, TwoDigits, Digits, WholePart, Fraction, Padded;
    var abs := Magnitude(cents);
    PlainParts(Digits(abs / 100), TwoDigits(abs % 100));
    DigitsSayTheirValue(abs / 100);
    TwoDigitsValue(abs % 100);
  }

  lemma PlainIsBare(whole: string, fraction: string)
    requires AllDigits(whole) && AllDigits(fraction)
    ensures Bare(whole + "." + fraction) == whole + "." + fraction
  {
    var t := whole + "." + fraction;
    forall i | 0 <= i < |t| ensures t[i] != ',' && t[i] != '$' {
      assert i < |whole| ==> IsDigit(whole[i]);
      assert |whole| < i ==> IsDigit(fraction[i - |whole| - 1]);
    }
    BareAlready(t);
  }

  /** The ends of a plain amount are digits. */
  lemma PlainEnds(whole: string, fraction: string)
    requires AllDigits(whole) && AllDigits(fraction) && whole != "" && fraction != ""
    ensures var t := whole + "." + fraction; t[0] == whole[0] && IsDigit(t[0]) && IsDigit(t[|t| - 1])
    ensures Unsigned(whole + "." + fraction) == (false, whole + "." + fraction)
  {
  }

  /** Reading back what `show_cents` prints gives the cents. */
  lemma ShowCentsReadsBack(cents: int)
    requires InI64(cents) && cents != -I64_LIMIT
    ensures ParseDollars(ShowCents(cents)) == Some(cents)
  {
    hide ParseDollars, Digits, TwoDigits, Bare, TrimStart, TrimEnd;
    var abs := Magnitude(cents);
    var whole, fraction := Digits(abs / 100), TwoDigits(abs % 100);
    var t := whole + "." + fraction;
    PlainIsBare(whole, fraction);
    PlainEnds(whole, fraction);
    if cents < 0 {
      Trimmed("-" + t);
      BareConcat("-", t);
      BareAlready("-");
      assert ShowCents(cents) == "-" + t && ("-" + t)[1..] == t;
    } else {
      Trimmed(t);
      assert ShowCents(cents) == t;
    }
    PrintedReads(cents, ShowCents(cents));
  }

  /** So does reading back what `format_amount` prints. */
  lemma FormatAmountReadsBack(cents: int)
    requires InI64(cents) && cents != -I64_LIMIT
    ensures ParseDollars(FormatAmount(cents)) == Some(cents)
  {
    hide ParseDollars, Digits, TwoDigits, Bare, TrimStart, TrimEnd;
    var abs := Magnitude(cents);
    var whole, fraction := Digits(abs / 100), TwoDigits(abs % 100);
    var t := whole + "." + fraction;
    PlainIsBare(whole, fraction);
    PlainEnds(whole, fraction);
    if cents < 0 {
      Trimmed("(" + t + ")");
      BareConcat("(" + t, ")");
      BareConcat("(", t);
      BareAlready("(");
      BareAlready(")");
      assert ("(" + t + ")")[1..|t| + 1] == t;
    } else {
      Trimmed(t);
      assert FormatAmount(cents) == t;
    }
    PrintedReads(cents, FormatAmount(cents));
  }

  /** And what `cents_to_dollars` prints, commas and all; that printer also takes the least amount of
      all, which no reading gives back. */
  lemma DollarsReadBack(cents: int)
    requires InI64(cents)
    ensures ParseDollars(Dollars(cents)) == Some(cents) <==> cents != -I64_LIMIT
    ensures cents == -I64_LIMIT ==> ParseDollars(Dollars(cents)) == None
  {
    hide ParseDollars, Digits, TwoDigits, Bare, TrimStart, TrimEnd, GroupedTo;
    var abs := Magnitude(cents);
    var whole, fraction := Digits(abs / 100), TwoDigits(abs % 100);
    var sign := if cents < 0 then "-" else "";
    var t, s := whole + "." + fraction, Dollars(cents);
    assert s == sign + "$" + GroupedTo(whole, |whole|) + ("." + fraction);
    DollarsAreBare(sign, whole, fraction);
    PlainEnds(whole, fraction);
    assert s[|s| - 1] == fraction[|fraction| - 1];
    Trimmed(s);
    assert if cents < 0 then (sign + t)[1..] == t else sign + t == t;
    PrintedReads(cents, s);
  }

  lemma {:induction false} DollarsAreBare(sign: string, whole: string, fraction: string)
    requires (sign == "-" || sign == "") && AllDigits(whole) && AllDigits(fraction)
    ensures Bare(sign + "$" + GroupedTo(whole, |whole|) + ("." + fraction)) == sign + (whole + "." + fraction)
  {
    hide *;
    BareConcat(sign + "$" + GroupedTo(whole, |whole|), "." + fraction);
    BareThree(sign, "$", GroupedTo(whole, |whole|));
    BareAlready(sign);
    NoSeparators();
    UngroupedIsWhole(whole, |whole|);
    assert whole[..|whole|] == whole;
    PointIsBare(fraction);
    assert sign + whole + ("." + fraction) == sign + (whole + "." + fraction);
  }

  lemma PointIsBare(fraction: string)
    requires AllDigits(fraction)
    ensures Bare("." + fraction) == "." + fraction
  {
    PlainIsBare("", fraction);
    assert "" + "." + fraction == "." + fraction;
  }

  /** Reading the digits of both parts as one number, point ignored, gives the cents: nothing is
      rounded, and nothing outside i64 is accepted. */
  lemma {:induction false} ReadingIsExact(s: string)
    requires ParseDollars(s).Some?
    ensures var cents := ParseDollars(s).value;
            var (negative, t) := Unsigned(Bare(TrimEnd(TrimStart(s))));
            var all := WholePart(t) + Fraction(t);
            && InI64(cents) && cents != -I64_LIMIT
            && (if negative then cents <= 0 else 0 <= cents)
            && AllDigits(all) && |Fraction(t)| <= 2
            && Magnitude(cents)
               == Value(all) * (if |Fraction(t)| == 0 then 100 else if |Fraction(t)| == 1 then 10 else 1)
  {
    var (negative, t) := Unsigned(Bare(TrimEnd(TrimStart(s))));
    var whole, fraction := WholePart(t), Fraction(t);
    hide Unsigned, Bare, TrimEnd, TrimStart, WholePart, Fraction, Value, AllDigits, Padded;
    PartsAreExact(whole, fraction);
  }

  /** The two parts are worth what the digits of both are, scaled to cents. */
  lemma PartsAreExact(whole: string, fraction: string)
    requires AllDigits(whole) && AllDigits(fraction) && |fraction| <= 2
    ensures AllDigits(whole + fraction) && AllDigits(Padded(fraction)) && 0 <= Value(whole)
    ensures Value(whole) * 100 + Value(Padded(fraction))
         == Value(whole + fraction) * (if |fraction| == 0 then 100 else if |fraction| == 1 then 10 else 1)
  {
    hide Value;
    if |fraction| == 0 {
      assert whole + fraction == whole;
      TwoDigitsValue(0);
      assert Padded(fraction) == TwoDigits(0);
    } else {
      DigitAlone(fraction[0]);
      ValueSnoc(whole, fraction[0]);
      if |fraction| == 1 {
        ValueSnoc([fraction[0]], '0');
        assert whole + fraction == whole + [fraction[0]] && Padded(fraction) == [fraction[0]] + ['0'];
      } else {
        ValueSnoc(whole + [fraction[0]], fraction[1]);
        ValueSnoc([fraction[0]], fraction[1]);
        assert whole + fraction == whole + [fraction[0]] + [fraction[1]] && fraction == [fraction[0]] + [fraction[1]];
      }
    }
  }

  lemma DigitAlone(c: char)
    requires IsDigit(c)
    ensures AllDigits([c]) && Value([c]) == ValueOf(c)
  {
    ValueSnoc("", c);
    assert "" + [c] == [c];
  }

  // ------------------------------------------------------------------ how it looks

  lemma {:induction false} GroupsAlike(whole: string, n: nat)
    requires 3 <= |whole| && n <= |whole| - 3
    ensures GroupedTo(whole[..|whole| - 3], n) == GroupedTo(whole, n)
  {
    if n != 0 {
      GroupsAlike(whole, n - 1);
      assert (|whole| - 3 - (n - 1)) % 3 == (|whole| - (n - 1)) % 3;
      assert whole[..|whole| - 3][n - 1] == whole[n - 1];
    }
  }

  lemma GroupedNext(whole: string, n: nat)
    requires n < |whole|
    ensures GroupedTo(whole, n + 1)
         == GroupedTo(whole, n) + (if 0 < n && (|whole| - n) % 3 == 0 then "," else "") + [whole[n]]
  {
  }

  /** Digits are grouped by threes from the end: up to three stand as they are; of more, the last three follow a comma
      after the rest, grouped. */
  lemma GroupedByThrees(whole: string)
    ensures GroupedTo(whole, |whole|)
         == if |whole| <= 3 then whole else GroupedTo(whole[..|whole| - 3], |whole| - 3) + "," + whole[|whole| - 3..]
  {
    hide GroupedTo;
    if |whole| <= 3 {
      FewAreNotGrouped(whole, |whole|);
      assert whole[..|whole|] == whole;
    } else {
      GroupsAlike(whole, |whole| - 3);
      LastThree(whole, |whole| - 3);
    }
  }

  lemma LastThree(whole: string, n: nat)
    requires 0 < n == |whole| - 3
    ensures GroupedTo(whole, |whole|) == GroupedTo(whole, n) + "," + whole[n..]
  {
    hide GroupedTo;
    var before, a, b, c := GroupedTo(whole, n), whole[n], whole[n + 1], whole[n + 2];
    GroupedNext(whole, n);
    GroupedNext(whole, n + 1);
    GroupedNext(whole, n + 2);
    assert GroupedTo(whole, n + 1) == before + "," + [a];
    assert GroupedTo(whole, n + 2) == before + "," + [a] + "" + [b];
    assert GroupedTo(whole, n + 3) == before + "," + [a] + "" + [b] + "" + [c];
    assert whole[n..] == [a, b, c];
    assert before + "," + [a] + "" + [b] + "" + [c] == before + "," + [a, b, c];
  }

  lemma {:induction false} FewAreNotGrouped(whole: string, n: nat)
    requires n <= |whole| <= 3
    ensures GroupedTo(whole, n) == whole[..n]
  {
    if n != 0 {
      FewAreNotGrouped(whole, n - 1);
      assert whole[..n] == whole[..n - 1] + "" + [whole[n - 1]];
    }
  }

  /** The dollars and cents of a printed amount: whole dollars, a point, and two digits of cents. */
  lemma PrintedParts(cents: int) returns (whole: string, pennies: string)
    ensures AllDigits(whole) && AllDigits(pennies) && |pennies| == 2
    ensures Value(whole) * 100 + Value(pennies) == if cents < 0 then -cents else cents
    ensures whole == "0" || (whole != "" && whole[0] != '0')
    ensures Dollars(cents) == (if cents < 0 then "-$" else "$") + GroupedTo(whole, |whole|) + "." + pennies
    ensures FormatAmount(cents) == if cents < 0 then "(" + whole + "." + pennies + ")" else whole + "." + pennies
    ensures ShowCents(cents) == (if cents < 0 then "-" else "") + whole + "." + pennies
  {
    var abs := Magnitude(cents);
    whole, pennies := Digits(abs / 100), TwoDigits(abs % 100);
    DigitsSayTheirValue(abs / 100);
    TwoDigitsValue(abs % 100);
    if 0 < abs / 100 {
      NoLeadingZero(abs / 100);
    }
    hide GroupedTo, TwoDigits, Value;
  }

  // ------------------------------------------------------------------ what is read

  /** Dollars as typed: a sign, or parentheses, or neither. */
  datatype Typed = Plain | Minus | Parenthesised

  function TypedAs(form: Typed, text: string): string {
    match form
    case Plain => text
    case Minus => "-" + text
    case Parenthesised => "(" + text + ")"
  }

  lemma TypedUnsigned(form: Typed, text: string)
    requires text != "" && (IsDigit(text[0]) || text[0] == '.')
    ensures Unsigned(TypedAs(form, text)) == (form != Plain, text)
  {
    var t := TypedAs(form, text);
    match form
    case Plain =>
    case Minus => assert t[1..] == text;
    case Parenthesised => assert t[1..|t| - 1] == text && t[|t| - 1] == ')';
  }

  lemma TypedIsBare(form: Typed, text: string)
    requires text != "" && forall i :: 0 <= i < |text| ==> IsDigit(text[i]) || text[i] == '.'
    ensures Bare(TrimEnd(TrimStart(TypedAs(form, text)))) == TypedAs(form, text)
  {
    var t := TypedAs(form, text);
    assert forall i :: 0 <= i < |t| ==> t[i] == '-' || t[i] == '(' || t[i] == ')' || IsDigit(t[i]) || t[i] == '.' by {
      assert forall i :: 0 <= i < |t| ==> t[i] in text || t[i] == '-' || t[i] == '(' || t[i] == ')';
    }
    Trimmed(t);
    BareAlready(t);
  }

  /** Digits with a point and up to two more, or without, in any of the three forms, are read as the cents they say, if
      they fit in an i64 and so does the whole part. */
  lemma TypedIsRead(form: Typed, whole: string, fraction: string, point: bool)
    requires AllDigits(whole) && AllDigits(fraction) && |fraction| <= 2 && whole + fraction != ""
             && (fraction != "" ==> point)
    ensures var cents := Value(whole) * 100 + Value(fraction) * (if |fraction| == 1 then 10 else 1);
            ParseDollars(TypedAs(form, whole + (if point then "." else "") + fraction))
            == if !InI64(cents) then None else Some(if form == Plain then cents else -cents)
  {
    hide *;
    var text := whole + (if point then "." else "") + fraction;
    TextIsDigits(whole, fraction, point);
    TypedIsBare(form, text);
    TypedUnsigned(form, text);
    TextParts(whole, fraction, point);
    PaddedIsWorth(fraction);
    PartsAreRead(TypedAs(form, text), form != Plain, text);
  }

  lemma TextIsDigits(whole: string, fraction: string, point: bool)
    requires AllDigits(whole) && AllDigits(fraction) && whole + fraction != "" && (fraction != "" ==> point)
    ensures var text := whole + (if point then "." else "") + fraction;
            text != "" && forall i :: 0 <= i < |text| ==> IsDigit(text[i]) || text[i] == '.'
  {
  }

  lemma PartsAreRead(s: string, negative: bool, t: string)
    requires Unsigned(Bare(TrimEnd(TrimStart(s)))) == (negative, t)
    requires AllDigits(WholePart(t)) && AllDigits(Fraction(t)) && |Fraction(t)| <= 2 && WholePart(t) + Fraction(t) != ""
    requires AllDigits(Padded(Fraction(t))) && 0 <= Value(Padded(Fraction(t)))
    ensures var cents: int := Value(WholePart(t)) * 100 + Value(Padded(Fraction(t)));
            ParseDollars(s) == if !InI64(cents) then None else Some(if negative then -cents else cents)
  {
    hide Bare, TrimEnd, TrimStart, Unsigned, WholePart, Fraction, Value, AllDigits, Padded;
  }

  lemma TextParts(whole: string, fraction: string, point: bool)
    requires AllDigits(whole) && AllDigits(fraction) && (fraction != "" ==> point)
    ensures var text := whole + (if point then "." else "") + fraction;
            WholePart(text) == whole && Fraction(text) == fraction
  {
    if point {
      PlainParts(whole, fraction);
    } else {
      assert whole + "" + fraction == whole;
      assert forall c :: c in whole ==> IsDigit(c);
      var i := FirstOf(whole, '.');
      assert i == |whole|;
    }
  }

  lemma PaddedIsWorth(fraction: string)
    requires AllDigits(fraction) && |fraction| <= 2
    ensures AllDigits(Padded(fraction))
    ensures 0 <= Value(Padded(fraction)) < 100
    ensures Value(Padded(fraction)) == Value(fraction) * (if |fraction| == 1 then 10 else 1)
  {
    if |fraction| == 0 {
      NothingIsWorth();
    } else if |fraction| == 1 {
      hide Value, AllDigits;
      assert fraction == [fraction[0]] && Padded(fraction) == [fraction[0]] + ['0'];
      FirstIsDigit(fraction);
      TwoDigitsAreWorth(fraction[0], '0');
    } else {
      hide Value, AllDigits;
      assert fraction == [fraction[0]] + [fraction[1]];
      FirstIsDigit(fraction);
      TwoDigitsAreWorth(fraction[0], fraction[1]);
    }
  }

  lemma FirstIsDigit(s: string)
    requires AllDigits(s) && s != ""
    ensures IsDigit(s[0]) && (|s| > 1 ==> IsDigit(s[1]))
  {
  }

  lemma NothingIsWorth()
    ensures AllDigits("00") && Value("00") == 0 && Value("") == 0
  {
    TwoDigitsValue(0);
    assert TwoDigits(0) == "00";
  }

  lemma TwoDigitsAreWorth(a: char, b: char)
    requires IsDigit(a) && IsDigit(b)
    ensures AllDigits([a] + [b]) && Value([a]) == ValueOf(a) && Value([a] + [b]) == 10 * ValueOf(a) + ValueOf(b)
  {
    DigitAlone(a);
    ValueSnoc([a], b);
  }
}
