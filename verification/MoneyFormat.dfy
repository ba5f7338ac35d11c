/**
  Printing and parsing amounts of money in the browser.

  Amounts are exact integers of minor units.  USD is the only currency with a symbol.
*/
module MoneyFormat {
  import opened Prelude

  const MINUS := '\U{2212}'

  /** JavaScript white space and line terminators, on which `trim` and \s agree. */
  predicate IsSpace(c: char) {
    || '\t' <= c <= '\r' || c == ' ' || c == '\U{00A0}' || c == '\U{1680}' || '\U{2000}' <= c <= '\U{200A}'
    || c == '\U{2028}' || c == '\U{2029}' || c == '\U{202F}' || c == '\U{205F}' || c == '\U{3000}' || c == '\U{FEFF}'
  }

  /** [,\s$€£] */
  predicate IsStripped(c: char) {
    c == ',' || c == '$' || c == '\U{20AC}' || c == '\U{00A3}' || IsSpace(c)
  }

  predicate IsDigit(c: char) {
    '0' <= c <= '9'
  }

  predicate AllDigits(s: string) {
    forall i :: 0 <= i < |s| ==> IsDigit(s[i])
  }

  // ---------------------------------------------------------------- money

  function Digit(d: nat): char
    requires d < 10
  {
    '0' + d as char
  }

  /** String(n) */
  function Decimal(n: nat): string {
    if n < 10 then [Digit(n)] else Decimal(n / 10) + [Digit(n % 10)]
  }

  /** toLocaleString('en-US') on a run of digits: a comma before every third digit from the right. */
  function Grouped(digits: string): string {
    if |digits| <= 3 then digits
    else Grouped(digits[..|digits| - 3]) + "," + digits[|digits| - 3..]
  }

  /** padStart(2, '0') */
  function PadStart2(s: string): string {
    if |s| >= 2 then s else if |s| == 1 then "0" + s else "00"
  }

  function Sign(minor: int, plus: bool): string {
    if minor < 0 then [MINUS] else if plus && minor > 0 then "+" else ""
  }

  function Abs(n: int): nat {
    if n < 0 then -n else n
  }

  function Money(minor: int, plus: bool): string {
    var whole := Grouped(Decimal(Abs(minor) / 100));
    var cents := PadStart2(Decimal(Abs(minor) % 100));
    Sign(minor, plus) + "$" + whole + "." + cents
  }

  // ---------------------------------------------------------------- parseMinor

  function TrimStart(s: string): string {
    if s != "" && IsSpace(s[0]) then TrimStart(s[1..]) else s
  }

  function TrimEnd(s: string): string {
    if s != "" && IsSpace(s[|s| - 1]) then TrimEnd(s[..|s| - 1]) else s
  }

  function Trim(s: string): string {
    TrimEnd(TrimStart(s))
  }

  function Stripped(s: string): string {
    if s == "" then ""
    else (if IsStripped(s[0]) then "" else [s[0]]) + Stripped(s[1..])
  }

  /** The part before the first dot. */
  function BeforeDot(s: string): (w: string)
    ensures |w| <= |s| && s[..|w|] == w && '.' !in w
    ensures |w| < |s| ==> s[|w|] == '.'
  {
    if s == "" || s[0] == '.' then "" else [s[0]] + BeforeDot(s[1..])
  }

  /** ^\d+(\.\d{0,2})?$ */
  predicate Matches(s: string) {
    var w := BeforeDot(s);
    var rest := s[|w|..];
    && w != "" && AllDigits(w)
    && (rest == "" || (|rest| <= 3 && AllDigits(rest[1..])))
  }

  /** Number(s) for a run of digits. */
  function NumberOf(s: string): nat
    requires AllDigits(s)
  {
    if s == "" then 0 else 10 * NumberOf(s[..|s| - 1]) + (s[|s| - 1] - '0') as nat
  }

  /** padEnd(2, '0') */
  function PadEnd2(s: string): string {
    if |s| >= 2 then s else if |s| == 1 then s + "0" else "00"
  }

  function ParseMinor(input: string): Option<nat> {
    var s := Stripped(Trim(input));
    if !Matches(s) then None
    else
      var w := BeforeDot(s);
      var f := if |w| < |s| then s[|w| + 1..] else "";
      Some(NumberOf(w) * 100 + NumberOf(PadEnd2(f)))
  }

  // ---------------------------------------------------------------- the round trip

  lemma {:induction false} DecimalReads(n: nat)
    ensures Decimal(n) != "" && AllDigits(Decimal(n)) && NumberOf(Decimal(n)) == n
    ensures n < 10 ==> |Decimal(n)| == 1
    ensures 10 <= n < 100 ==> |Decimal(n)| == 2
  {
    if n >= 10 {
      DecimalReads(n / 10);
      var s := Decimal(n);
      assert s[..|s| - 1] == Decimal(n / 10);
    } else {
      assert Decimal(n)[..0] == "";
    }
  }

  lemma {:induction false} CentsRead(n: nat)
    requires n < 100
    ensures var s := PadStart2(Decimal(n)); |s| == 2 && AllDigits(s) && NumberOf(s) == n
  {
    DecimalReads(n);
    if n < 10 {
      var s := PadStart2(Decimal(n));
      assert s == ['0', Digit(n)] && s[..1] == ['0'] && ['0'][..0] == "";
    }
  }

  lemma {:induction false} StrippedConcat(a: string, b: string)
    ensures Stripped(a + b) == Stripped(a) + Stripped(b)
  {
    if a == "" {
      assert a + b == b;
    } else {
      assert (a + b)[1..] == a[1..] + b;
      StrippedConcat(a[1..], b);
    }
  }

  lemma {:induction false} StrippedKeeps(s: string)
    requires forall i :: 0 <= i < |s| ==> !IsStripped(s[i])
    ensures Stripped(s) == s
  {
    if s == "" {
    } else {
      StrippedKeeps(s[1..]);
    }
  }

  lemma {:induction false} DigitsStay(s: string)
    requires AllDigits(s)
    ensures Stripped(s) == s
  {
    forall i | 0 <= i < |s| ensures !IsStripped(s[i]) {
      assert IsDigit(s[i]);
    }
    StrippedKeeps(s);
  }

  lemma {:induction false} CommaStripped(a: string, b: string)
    ensures Stripped(a + "," + b) == Stripped(a) + Stripped(b)
  {
    OneStripped(',');
    assert IsStripped(',');
    hide Stripped, IsStripped;
    StrippedConcat(a + ",", b);
    StrippedConcat(a, ",");
    assert Stripped(a) + "" == Stripped(a);
  }

  /** Stripping undoes the grouping. */
  lemma {:induction false} GroupingUndone(digits: string)
    requires AllDigits(digits)
    ensures Stripped(Grouped(digits)) == digits
  {
    if |digits| <= 3 {
      DigitsStay(digits);
    } else {
      var head, tail := digits[..|digits| - 3], digits[|digits| - 3..];
      assert Grouped(digits) == Grouped(head) + "," + tail;
      GroupingUndone(head);
      DigitsStay(tail);
      CommaStripped(Grouped(head), tail);
      hide *;
      assert head + tail == digits;
    }
  }

  lemma {:induction false} OneStripped(c: char)
    ensures Stripped([c]) == if IsStripped(c) then "" else [c]
  {
    assert [c][1..] == "";
  }

  /** Counted from the right, every fourth character is a comma and no other is. */
  lemma {:induction false} CommasEveryThree(digits: string, i: nat)
    requires AllDigits(digits) && i < |Grouped(digits)|
    ensures Grouped(digits)[|Grouped(digits)| - 1 - i] == ',' <==> i % 4 == 3
  {
    var g := Grouped(digits);
    if |digits| <= 3 {
      assert IsDigit(g[|g| - 1 - i]);
    } else {
      var head, tail := digits[..|digits| - 3], digits[|digits| - 3..];
      if i < 3 {
        assert g[|g| - 1 - i] == tail[2 - i] && IsDigit(digits[|digits| - 1 - i]);
      } else if i > 3 {
        CommasEveryThree(head, i - 4);
        assert g[|g| - 1 - i] == Grouped(head)[|Grouped(head)| - 1 - (i - 4)];
      }
    }
  }

  lemma {:induction false} NoLeadingZero(n: nat)
    ensures Decimal(n) != "" && (Decimal(n)[0] == '0' <==> n == 0)
  {
    if n >= 10 {
      NoLeadingZero(n / 10);
    }
  }

  lemma {:induction false} MoneyStripped(minor: int, plus: bool)
    ensures Stripped(Money(minor, plus)) ==
            Sign(minor, plus) + Decimal(Abs(minor) / 100) + "." + PadStart2(Decimal(Abs(minor) % 100))
  {
    var sign, digits := Sign(minor, plus), Decimal(Abs(minor) / 100);
    var whole, cents := Grouped(digits), PadStart2(Decimal(Abs(minor) % 100));
    assert Money(minor, plus) == sign + "$" + whole + "." + cents;
    StrippedKeeps(sign);
    DecimalReads(Abs(minor) / 100);
    CentsRead(Abs(minor) % 100);
    GroupingUndone(digits);
    DigitsStay(cents);
    hide *;
    AmountStripped(sign, whole, cents);
  }

  lemma {:induction false} AmountStripped(sign: string, whole: string, cents: string)
    ensures Stripped(sign + "$" + whole + "." + cents) ==
            Stripped(sign) + Stripped(whole) + "." + Stripped(cents)
  {
    OneStripped('$');
    OneStripped('.');
    assert IsStripped('$') && !IsStripped('.');
    hide Stripped, IsStripped;
    StrippedConcat(sign + "$" + whole + ".", cents);
    StrippedConcat(sign + "$" + whole, ".");
    StrippedConcat(sign + "$", whole);
    StrippedConcat(sign, "$");
    assert Stripped(sign) + "" == Stripped(sign);
  }

  lemma {:induction false} NothingToTrim(s: string)
    requires s != "" && !IsSpace(s[0]) && !IsSpace(s[|s| - 1])
    ensures Trim(s) == s
  {
  }

  lemma {:induction false} BeforeDotOf(w: string, f: string)
    requires '.' !in w
    ensures BeforeDot(w + "." + f) == w
  {
    if w == "" {
      assert w + "." + f == "." + f;
    } else {
      assert (w + "." + f)[1..] == w[1..] + "." + f;
      BeforeDotOf(w[1..], f);
    }
  }

  /** Two-decimal input is read as that many minor units. */
  lemma {:induction false} ParseDecimal(w: string, f: string)
    requires w != "" && AllDigits(w) && AllDigits(f) && |f| == 2
    ensures Matches(w + "." + f) && BeforeDot(w + "." + f) == w && (w + "." + f)[|w| + 1..] == f
  {
    forall i | 0 <= i < |w| ensures w[i] != '.' {
      assert IsDigit(w[i]);
    }
    BeforeDotOf(w, f);
    assert (w + "." + f)[|w|..] == "." + f;
  }

  lemma {:induction false} SignedIsRefused(sign: char, rest: string)
    requires !IsDigit(sign) && sign != '.'
    ensures !Matches([sign] + rest)
  {
    var s := [sign] + rest;
    assert BeforeDot(s)[0] == sign;
  }

  lemma {:induction false} MoneyEnds(minor: int, plus: bool)
    ensures Trim(Money(minor, plus)) == Money(minor, plus)
  {
    var s, cents := Money(minor, plus), PadStart2(Decimal(Abs(minor) % 100));
    var rest := Sign(minor, plus) + "$" + Grouped(Decimal(Abs(minor) / 100)) + ".";
    assert s == rest + cents;
    assert s[0] == MINUS || s[0] == '+' || s[0] == '$';
    CentsRead(Abs(minor) % 100);
    hide Money, Grouped, Decimal, PadStart2, NumberOf, Sign, Trim;
    assert s[|s| - 1] == cents[1] && IsDigit(cents[1]);
    NothingToTrim(s);
  }

  /**
    What is printed is read back exactly when no sign was printed: amounts from zero up
    without the plus option, and zero itself.  Signed output is refused.
  */
  lemma {:induction false} RoundTrip(minor: int, plus: bool)
    ensures ParseMinor(Money(minor, plus)) == if minor < 0 || (plus && minor > 0) then None else Some(minor)
  {
    hide Money, Trim, Grouped, Decimal, PadStart2, NumberOf, Stripped;
    MoneyEnds(minor, plus);
    MoneyStripped(minor, plus);
    var w, f := Decimal(Abs(minor) / 100), PadStart2(Decimal(Abs(minor) % 100));
    var s := Stripped(Money(minor, plus));
    DecimalReads(Abs(minor) / 100);
    CentsRead(Abs(minor) % 100);
    if minor < 0 || (plus && minor > 0) {
      var sign := if minor < 0 then MINUS else '+';
      assert s == [sign] + (w + "." + f);
      SignedIsRefused(sign, w + "." + f);
    } else {
      assert s == w + "." + f;
      ParseDecimal(w, f);
    }
  }

  lemma {:induction false} MoneyHead(minor: int)
    ensures Money(minor, false) != ""
    ensures if minor < 0 then Money(minor, false)[0] == MINUS && Money(minor, false)[1..] == Money(-minor, false)
            else Money(minor, false)[0] == '$'
  {
    var whole, cents := Grouped(Decimal(Abs(minor) / 100)), PadStart2(Decimal(Abs(minor) % 100));
    assert Abs(-minor) == Abs(minor);
    hide Grouped, Decimal, PadStart2;
    var sign := Sign(minor, false);
    assert sign + "$" + whole + "." + cents == sign + ("" + "$" + whole + "." + cents);
  }

  /** Different amounts never look the same. */
  lemma {:induction false} MoneyIsInjective(m: int, n: int)
    requires Money(m, false) == Money(n, false)
    ensures m == n
  {
    hide Money, ParseMinor;
    MoneyHead(m);
    MoneyHead(n);
    RoundTrip(Abs(m), false);
    RoundTrip(Abs(n), false);
  }

  /** A printed amount starts with its sign, if it shows one, or the symbol, and ends with two digits of cents. */
  lemma {:induction false} MoneyShape(minor: int, plus: bool)
    ensures var s := Money(minor, plus);
            && |s| >= 4
            && (s[0] == '\U{2212}' <==> minor < 0)
            && (s[0] == '+' <==> plus && minor > 0)
            && (s[0] == '$' <==> minor == 0 || (!plus && minor > 0))
            && s[|s| - 3] == '.' && AllDigits(s[|s| - 2..])
            && NumberOf(s[|s| - 2..]) == (if minor < 0 then -minor else minor) % 100
  {
    var s, cents := Money(minor, plus), PadStart2(Decimal(Abs(minor) % 100));
    var head := Sign(minor, plus) + "$" + Grouped(Decimal(Abs(minor) / 100));
    assert s == head + "." + cents;
    assert head[0] == s[0];
    CentsRead(Abs(minor) % 100);
    hide Money, Grouped, Decimal, PadStart2, NumberOf;
    assert s[|s| - 2..] == cents;
  }

  lemma {:induction false} DigitsTrim(w: string, rest: string)
    requires w != "" && AllDigits(w) && (rest == "" || !IsSpace(rest[|rest| - 1]))
    ensures Trim(w + rest) == w + rest
  {
    var s := w + rest;
    assert IsDigit(s[0]);
    if rest == "" {
      assert IsDigit(s[|s| - 1]);
    } else {
      assert s[|s| - 1] == rest[|rest| - 1];
    }
    NothingToTrim(s);
  }

  lemma {:induction false} StrippedKeepsDecimal(w: string, f: string)
    requires AllDigits(w) && AllDigits(f)
    ensures Stripped(w + "." + f) == w + "." + f
  {
    var s := w + "." + f;
    forall i | 0 <= i < |s| ensures !IsStripped(s[i]) {
      assert s[i] == '.' || IsDigit(s[i]);
    }
    StrippedKeeps(s);
  }

  lemma {:induction false} WholePart(w: string)
    requires AllDigits(w)
    ensures BeforeDot(w) == w
  {
    if w == "" {
    } else {
      WholePart(w[1..]);
    }
  }

  lemma {:induction false} PaddedNumber(f: string)
    requires AllDigits(f) && |f| <= 2
    ensures AllDigits(PadEnd2(f))
    ensures NumberOf(PadEnd2(f)) == match |f| case 0 => 0 case 1 => 10 * NumberOf(f) case _ => NumberOf(f)
  {
    if |f| == 1 {
      assert (f + "0")[..1] == f;
    } else if |f| == 0 {
      assert "00"[..1] == "0" && "0"[..0] == "";
    }
  }

  /** A whole number is read as that many units. */
  lemma {:induction false} ParseWhole(w: string)
    requires w != "" && AllDigits(w)
    ensures ParseMinor(w) == Some(100 * NumberOf(w))
  {
    assert w + "" == w;
    DigitsTrim(w, "");
    DigitsStay(w);
    WholePart(w);
    PaddedNumber("");
    assert w[|w|..] == "";
    hide NumberOf, PadEnd2, Trim, Stripped, BeforeDot;
  }

  lemma {:induction false} MatchesDecimal(w: string, f: string)
    requires w != "" && AllDigits(w) && AllDigits(f)
    ensures var s := w + "." + f;
            BeforeDot(s) == w && s[|w| + 1..] == f && (Matches(s) <==> |f| <= 2)
  {
    var s := w + "." + f;
    forall i | 0 <= i < |w| ensures w[i] != '.' {
      assert IsDigit(w[i]);
    }
    BeforeDotOf(w, f);
    assert s[|w|..] == "." + f && s[|w|..][1..] == f;
    hide BeforeDot;
  }

  lemma {:induction false} DecimalTrim(w: string, f: string)
    requires w != "" && AllDigits(w) && AllDigits(f)
    ensures Stripped(Trim(w + "." + f)) == w + "." + f
  {
    assert w + ("." + f) == w + "." + f;
    if f != "" {
      assert IsDigit(f[|f| - 1]);
    }
    DigitsTrim(w, "." + f);
    StrippedKeepsDecimal(w, f);
  }

  /** Input whose stripped form is digits, a dot and digits. */
  ghost predicate IsDecimal(input: string, w: string, f: string) {
    var s := Stripped(Trim(input));
    && BeforeDot(s) == w && |w| < |s| && s[|w| + 1..] == f && (Matches(s) <==> |f| <= 2)
  }

  lemma {:induction false} PlainDecimal(w: string, f: string)
    requires w != "" && AllDigits(w) && AllDigits(f)
    ensures IsDecimal(w + "." + f, w, f)
  {
    DecimalTrim(w, f);
    MatchesDecimal(w, f);
    hide Trim, Stripped, BeforeDot, Matches, AllDigits;
  }

  lemma {:induction false} DecimalReading(input: string, w: string, f: string)
    requires AllDigits(w) && AllDigits(f) && IsDecimal(input, w, f)
    ensures if |f| > 2 then ParseMinor(input) == None
            else ParseMinor(input) == Some(100 * NumberOf(w) + match |f|
                                                               case 0 => 0
                                                               case 1 => 10 * NumberOf(f)
                                                               case _ => NumberOf(f))
  {
    if |f| <= 2 {
      PaddedNumber(f);
    }
    hide NumberOf, PadEnd2, Trim, Stripped, BeforeDot, Matches;
  }

  /** Digits with at most two decimals are read as minor units, missing decimals as zeros; more are refused. */
  lemma {:induction false} ParseMinorReads(w: string, f: string)
    requires w != "" && AllDigits(w) && AllDigits(f)
    ensures if |f| > 2 then ParseMinor(w + "." + f) == None
            else ParseMinor(w + "." + f) == Some(100 * NumberOf(w) + match |f|
                                                                     case 0 => 0
                                                                     case 1 => 10 * NumberOf(f)
                                                                     case _ => NumberOf(f))
  {
    PlainDecimal(w, f);
    hide *;
    DecimalReading(w + "." + f, w, f);
  }

  lemma {:induction false} TrimStartStripped(s: string)
    ensures Stripped(TrimStart(s)) == Stripped(s)
  {
    if s != "" && IsSpace(s[0]) {
      TrimStartStripped(s[1..]);
    }
  }

  lemma {:induction false} TrimEndStripped(s: string)
    ensures Stripped(TrimEnd(s)) == Stripped(s)
  {
    if s != "" && IsSpace(s[|s| - 1]) {
      var front, c := s[..|s| - 1], s[|s| - 1];
      TrimEndStripped(front);
      StrippedConcat(front, [c]);
      OneStripped(c);
      hide Stripped;
      assert s == front + [c];
      assert Stripped(front) + "" == Stripped(front);
    }
  }

  lemma {:induction false} OneLess(a: string, c: char, b: string)
    requires IsStripped(c)
    ensures Stripped(a + [c] + b) == Stripped(a + b)
  {
    OneStripped(c);
    hide Stripped, IsStripped;
    StrippedConcat(a + [c], b);
    StrippedConcat(a, [c]);
    StrippedConcat(a, b);
    assert Stripped(a) + "" == Stripped(a);
  }

  lemma {:induction false} TrimIsRedundant(s: string)
    ensures Stripped(Trim(s)) == Stripped(s)
  {
    TrimStartStripped(s);
    TrimEndStripped(TrimStart(s));
    hide Stripped, TrimStart, TrimEnd;
  }

  lemma {:induction false} SameStripped(s: string, t: string)
    requires Stripped(Trim(s)) == Stripped(Trim(t))
    ensures ParseMinor(s) == ParseMinor(t)
  {
    hide Stripped, Trim, Matches, BeforeDot, NumberOf, PadEnd2;
  }

  /** Grouping commas, currency signs and blanks anywhere in the input make no difference. */
  lemma {:induction false} SeparatorsIgnored(a: string, c: char, b: string)
    requires c in {',', '$', '\U{20AC}', '\U{00A3}', ' ', '\t', '\n', '\r', '\U{00A0}', '\U{2028}'}
    ensures ParseMinor(a + [c] + b) == ParseMinor(a + b)
  {
    assert IsStripped(c);
    hide *;
    OneLess(a, c, b);
    TrimIsRedundant(a + [c] + b);
    TrimIsRedundant(a + b);
    SameStripped(a + [c] + b, a + b);
  }
}
