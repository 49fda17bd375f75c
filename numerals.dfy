/** Python's decimal rendering of non-negative integers (`str(n)`, `f"{n:,}"`, `f"{n:2}"`)
    and `int(text)` on base-10 text. */
module Numerals {
  import opened Wrappers
  import opened Text

  /** ASCII digits. Python's `\d` and `int()` also accept the other Unicode decimal
      digits; those are not modelled. */
  predicate IsDigit(c: char) {
    '0' <= c <= '9'
  }

  predicate AllDigits(s: string) {
    forall i :: 0 <= i < |s| ==> IsDigit(s[i])
  }

  function DigitValue(c: char): nat
    requires IsDigit(c)
  {
    (c as int) - ('0' as int)
  }

  function DigitChar(d: nat): (c: char)
    requires d < 10
    ensures IsDigit(c) && DigitValue(c) == d
  {
    (('0' as int) + d) as char
  }

  /** The number a string of digits denotes. */
  function DigitsValue(s: string): nat
    requires AllDigits(s)
  {
    if |s| == 0 then 0 else DigitsValue(s[..|s| - 1]) * 10 + DigitValue(s[|s| - 1])
  }

  /** `str(n)` for `n >= 0`. */
  function Decimal(n: nat): (r: string)
    ensures |r| >= 1 && AllDigits(r)
    ensures |r| > 1 ==> r[0] != '0'
  {
    if n < 10 then [DigitChar(n)] else Decimal(n / 10) + [DigitChar(n % 10)]
  }

  /** Reading back the digits `str(n)` writes gives `n`. */
  lemma {:induction false} DecimalValue(n: nat)
    ensures DigitsValue(Decimal(n)) == n
  {
    if n >= 10 {
      DecimalValue(n / 10);
      var r := Decimal(n);
      assert r[..|r| - 1] == Decimal(n / 10);
    }
  }

  /** `str(n)` is one-to-one. */
  lemma {:induction false} DecimalInjective(m: nat, n: nat)
    requires Decimal(m) == Decimal(n)
    ensures m == n
  {
    DecimalValue(m);
    DecimalValue(n);
  }

  /** Three digits with leading zeros: a group after a thousands separator. */
  function Pad3(k: nat): (r: string)
    requires k < 1000
    ensures |r| == 3 && AllDigits(r)
  {
    [DigitChar(k / 100), DigitChar(k / 10 % 10), DigitChar(k % 10)]
  }

  /** `f"{n:,}"`: decimal digits with a comma between each group of three, from the right. */
  function Grouped(n: nat): (r: string)
    ensures |r| >= 1 && forall i :: 0 <= i < |r| ==> IsDigit(r[i]) || r[i] == ','
  {
    if n < 1000 then Decimal(n) else Grouped(n / 1000) + "," + Pad3(n % 1000)
  }

  function WithoutCommas(s: string): string {
    if |s| == 0 then ""
    else if s[|s| - 1] == ',' then WithoutCommas(s[..|s| - 1])
    else WithoutCommas(s[..|s| - 1]) + [s[|s| - 1]]
  }

  lemma {:induction false} WithoutCommasAppend(a: string, b: string)
    ensures WithoutCommas(a + b) == WithoutCommas(a) + WithoutCommas(b)
    decreases |b|
  {
    if |b| == 0 {
      assert a + b == a;
    } else {
      assert (a + b)[..|a + b| - 1] == a + b[..|b| - 1];
      WithoutCommasAppend(a, b[..|b| - 1]);
    }
  }

  lemma {:induction false} WithoutCommasDigits(s: string)
    requires AllDigits(s)
    ensures WithoutCommas(s) == s
    decreases |s|
  {
    if |s| > 0 {
      WithoutCommasDigits(s[..|s| - 1]);
      assert s == s[..|s| - 1] + [s[|s| - 1]];
    }
  }

  lemma {:induction false} Pad3Decimal(k: nat)
    requires k < 1000
    ensures DigitsValue(Pad3(k)) == k
  {
    var r := Pad3(k);
    assert r[..2][..1] == [r[0]] && r[..2] == [r[0], r[1]];
    assert [r[0]][..0] == [];
    assert DigitsValue([r[0]]) == k / 100;
    assert DigitsValue([r[0], r[1]]) == k / 100 * 10 + k / 10 % 10;
    assert DigitsValue(r) == (k / 100 * 10 + k / 10 % 10) * 10 + k % 10;
  }

  /** Commas exactly every fourth place from the right, none at either end. */
  predicate CommasEveryFourth(r: string) {
    |r| > 0 && r[0] != ',' && r[|r| - 1] != ','
    && forall i :: 0 <= i < |r| ==> (r[i] == ',' <==> (|r| - i) % 4 == 0)
  }

  /** The separators are where the format puts them: a comma never opens or closes the
      text, and commas sit exactly every fourth place from the right. */
  lemma {:induction false} GroupedCommas(n: nat)
    ensures CommasEveryFourth(Grouped(n))
  {
    if n < 1000 {
      DecimalLength(n);
      DigitsNoComma(Decimal(n));
    } else {
      GroupedCommas(n / 1000);
      GroupAppend(Grouped(n / 1000), Pad3(n % 1000));
    }
  }

  lemma {:induction false} DigitsNoComma(d: string)
    requires 1 <= |d| <= 3 && AllDigits(d)
    ensures CommasEveryFourth(d)
  {
  }

  /** Appending a comma and three digits keeps the commas every fourth place. */
  lemma {:induction false} GroupAppend(h: string, p: string)
    requires CommasEveryFourth(h) && |p| == 3 && AllDigits(p)
    ensures CommasEveryFourth(h + "," + p)
  {
    var r := h + "," + p;
    forall i | 0 <= i < |r| ensures (r[i] == ',' <==> (|r| - i) % 4 == 0) {
      if i < |h| {
        assert r[i] == h[i];
        assert (|r| - i) % 4 == (|h| - i) % 4;
      } else if i > |h| {
        assert r[i] == p[i - |h| - 1];
      }
    }
  }

  /** Taking the separators out of `f"{n:,}"` leaves `str(n)`. */
  lemma {:induction false} GroupedDigits(n: nat)
    ensures WithoutCommas(Grouped(n)) == Decimal(n)
  {
    if n < 1000 {
      WithoutCommasDigits(Decimal(n));
    } else {
      GroupedDigits(n / 1000);
      var h := Grouped(n / 1000);
      var p := Pad3(n % 1000);
      WithoutCommasAppend(h + ",", p);
      WithoutCommasAppend(h, ",");
      assert WithoutCommas(",") == "" by { assert ","[..0] == ""; }
      WithoutCommasDigits(p);
      DecimalSplit(n);
    }
  }

  /** Numbers below 1000 take at most three digits. */
  lemma {:induction false} DecimalLength(n: nat)
    ensures n < 1000 ==> |Decimal(n)| <= 3
    ensures n >= 1000 ==> |Decimal(n)| >= 4
  {
    if n >= 10 { DecimalLength(n / 10); }
  }

  /** The digits of `n` are those of `n / 1000` followed by three more. */
  lemma {:induction false} DecimalSplit(n: nat)
    requires n >= 1000
    ensures Decimal(n) == Decimal(n / 1000) + Pad3(n % 1000)
  {
    var a := n / 10;
    var b := a / 10;
    var c := b / 10;
    assert c == n / 1000;
    assert Decimal(n) == Decimal(a) + [DigitChar(n % 10)];
    assert Decimal(a) == Decimal(b) + [DigitChar(a % 10)];
    assert Decimal(b) == Decimal(c) + [DigitChar(b % 10)];
    assert b % 10 == n % 1000 / 100;
    assert a % 10 == n % 1000 / 10 % 10;
  }

  /** `f"{n:2}"`: right-aligned in a field of at least two characters. */
  function PadLeft2(n: nat): (r: string)
    ensures |r| == if n < 10 then 2 else |Decimal(n)|
    ensures r[|r| - |Decimal(n)|..] == Decimal(n)
    ensures forall i :: 0 <= i < |r| - |Decimal(n)| ==> r[i] == ' '
  {
    if n < 10 then " " + Decimal(n) else Decimal(n)
  }

  // ---------------------------------------------------------------------------------------
  // int(text)

  /** The digit part `int()` accepts: digits, with single underscores only between two
      digits. */
  predicate IsDigitGroups(s: string) {
    |s| > 0 && IsDigit(s[0]) && IsDigit(s[|s| - 1])
    && (forall i :: 0 <= i < |s| ==> IsDigit(s[i]) || s[i] == '_')
    && (forall i, j :: 0 <= i < |s| && j == i + 1 < |s| && s[i] == '_' ==> s[j] != '_')
  }

  function DropUnderscores(s: string): (r: string)
    ensures (forall i :: 0 <= i < |s| ==> IsDigit(s[i]) || s[i] == '_') ==> AllDigits(r)
  {
    if |s| == 0 then ""
    else if s[|s| - 1] == '_' then DropUnderscores(s[..|s| - 1])
    else DropUnderscores(s[..|s| - 1]) + [s[|s| - 1]]
  }

  /** The magnitude written in a digit part. */
  function GroupsValue(s: string): nat
    requires IsDigitGroups(s)
  {
    DigitsValue(DropUnderscores(s))
  }

  /** `int(text)` with base 10: surrounding whitespace is ignored, one optional sign, then a
      digit part; anything else raises ValueError. */
  function ParseInt(text: string): (r: Result<int, PyError>)
    ensures r.Ok? ==> |Strip(text)| > 0
  {
    ParseStripped(text, Strip(text))
  }

  /** The value of `text` once stripped to `t`: an optional sign, then digit groups. */
  function ParseStripped(text: string, t: string): (r: Result<int, PyError>)
    ensures r.Ok? ==> |t| > 0
  {
    if |t| > 0 && (t[0] == '+' || t[0] == '-') then
      var body := t[1..];
      if IsDigitGroups(body) then
        var v: int := GroupsValue(body);
        Ok(if t[0] == '-' then -v else v)
      else Err(ValueError(text))
    else if IsDigitGroups(t) then Ok(GroupsValue(t))
    else Err(ValueError(text))
  }

  lemma {:induction false} DropUnderscoresDigits(s: string)
    requires AllDigits(s)
    ensures DropUnderscores(s) == s
    decreases |s|
  {
    if |s| > 0 {
      DropUnderscoresDigits(s[..|s| - 1]);
      assert s == s[..|s| - 1] + [s[|s| - 1]];
    }
  }

  /** Plain digits are a single digit group worth their value. */
  lemma {:induction false} DigitGroupsValue(d: string)
    requires |d| > 0 && AllDigits(d)
    ensures IsDigitGroups(d) && GroupsValue(d) == DigitsValue(d)
  {
    DropUnderscoresDigits(d);
  }

  /** `int(d) == value` for plain digits `d`. */
  lemma {:induction false} ParseDigits(d: string)
    requires |d| > 0 && AllDigits(d)
    ensures ParseInt(d) == Ok(DigitsValue(d))
  {
    StripNoSpace(d);
    DigitGroupsValue(d);
  }

  /** `'-' + d` for plain digits `d`: a sign, then `d`, ending in a digit. */
  lemma {:induction false} NegatedShape(d: string)
    requires |d| > 0 && AllDigits(d)
    ensures var t := "-" + d; t[0] == '-' && t[1..] == d && IsDigit(t[|t| - 1])
  {
    var t := "-" + d;
    assert t[|t| - 1] == d[|d| - 1];
  }

  /** A stripped text of a minus sign and digit groups is worth minus their value. */
  lemma {:induction false} ParseMinus(text: string, t: string)
    requires |t| > 0 && t[0] == '-' && IsDigitGroups(t[1..])
    ensures ParseStripped(text, t) == Ok(-(GroupsValue(t[1..]) as int))
  {
  }

  /** A minus sign before plain digits is already stripped. */
  lemma {:induction false} NegatedStripped(d: string)
    requires |d| > 0 && AllDigits(d)
    ensures ParseInt("-" + d) == ParseStripped("-" + d, "-" + d)
  {
    NegatedShape(d);
    StripNoSpace("-" + d);
  }

  /** The stripped text `'-' + d` is worth minus the value of `d`. */
  lemma {:induction false} NegatedValue(d: string)
    requires |d| > 0 && AllDigits(d)
    ensures ParseStripped("-" + d, "-" + d) == Ok(-(DigitsValue(d) as int))
  {
    NegatedShape(d);
    DigitGroupsValue(d);
    ParseMinus("-" + d, "-" + d);
  }

  /** `int('-' + d) == -value` for plain digits `d`. */
  lemma {:induction false} ParseNegatedDigits(d: string)
    requires |d| > 0 && AllDigits(d)
    ensures ParseInt("-" + d) == Ok(-(DigitsValue(d) as int))
  {
    NegatedStripped(d);
    NegatedValue(d);
  }

  /** `int(str(n)) == n` and `int('-' + str(n)) == -n`. */
  lemma {:induction false} ParseDecimal(n: nat)
    ensures ParseInt(Decimal(n)) == Ok(n)
    ensures ParseInt("-" + Decimal(n)) == Ok(-(n as int))
  {
    ParseDecimalPlain(n);
    ParseDecimalNegated(n);
  }

  /** `int(str(n)) == n`. */
  lemma {:induction false} ParseDecimalPlain(n: nat)
    ensures ParseInt(Decimal(n)) == Ok(n)
  {
    DecimalValue(n);
    ParseDigits(Decimal(n));
  }

  /** `int('-' + str(n)) == -n`. */
  lemma {:induction false} ParseDecimalNegated(n: nat)
    ensures ParseInt("-" + Decimal(n)) == Ok(-(n as int))
  {
    DecimalValue(n);
    NegatedDecimalValue(n, Decimal(n));
  }

  /** `int('-' + d) == -n` for digits `d` worth `n`. */
  lemma {:induction false} NegatedDecimalValue(n: nat, d: string)
    requires |d| > 0 && AllDigits(d) && DigitsValue(d) == n
    ensures ParseInt("-" + d) == Ok(-(n as int))
  {
    ParseNegatedDigits(d);
  }

  /** Text with nothing but whitespace, or with a character that is neither whitespace, a
      digit, a sign nor an underscore, is refused. */
  lemma {:induction false} ParseIntRejects(text: string)
    requires AllSpace(text) || exists i :: (0 <= i < |text| && !IsSpace(text[i])
      && !IsDigit(text[i]) && text[i] !in "+-_")
    ensures ParseInt(text).Err?
  {
    var t := Strip(text);
    var a, b := StripSlice(text);
    if !AllSpace(text) {
      var i :| 0 <= i < |text| && !IsSpace(text[i]) && !IsDigit(text[i]) && text[i] !in "+-_";
      assert a <= i < b;
      assert t[i - a] == text[i];
      assert !IsDigitGroups(t);
      if i - a > 0 {
        assert t[1..][i - a - 1] == text[i];
        assert !IsDigitGroups(t[1..]);
      } else {
        assert t[0] != '+' && t[0] != '-';
      }
    }
  }

  /** `str(n)` for any integer. */
  function IntText(n: int): string {
    if n >= 0 then Decimal(n) else "-" + Decimal(-n)
  }

  /** `int(str(n)) == n`. */
  lemma {:induction false} ParseIntText(n: int)
    ensures ParseInt(IntText(n)) == Ok(n)
  {
    if n >= 0 {
      assert IntText(n) == Decimal(n);
      ParseDecimalPlain(n);
    } else {
      assert IntText(n) == "-" + Decimal(-n);
      ParseDecimalNegated(-n);
    }
  }
}
