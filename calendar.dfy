/** The part of Python's `datetime.date` the scripts use: construction with its range checks,
    comparison, `isoformat()`, `fromisoformat()` on the strings the scripts build, and adding
    one day. */
module Calendar {
  import opened Wrappers
  import opened Numerals

  datatype Date = Date(year: int, month: int, day: int)

  predicate IsLeap(y: int) {
    y % 4 == 0 && (y % 100 != 0 || y % 400 == 0)
  }

  function DaysInMonth(y: int, m: int): (n: int)
    requires 1 <= m <= 12
    ensures 28 <= n <= 31
  {
    if m == 2 then (if IsLeap(y) then 29 else 28)
    else if m == 4 || m == 6 || m == 9 || m == 11 then 30
    else 31
  }

  /** The dates `datetime.date` can represent: years 1 to 9999. */
  predicate Valid(d: Date) {
    1 <= d.year <= 9999 && 1 <= d.month <= 12 && 1 <= d.day <= DaysInMonth(d.year, d.month)
  }

  /** `datetime.date(y, m, d)`: the date, or the `ValueError` the constructor raises, checking
      the year first, then the month, then the day. */
  function MakeDate(y: int, m: int, d: int): (r: Result<Date, PyError>)
    ensures r.Ok? <==> Valid(Date(y, m, d))
    ensures r.Ok? ==> r.value == Date(y, m, d)
  {
    if !(1 <= y <= 9999) then Err(ValueError("year is out of range"))
    else if !(1 <= m <= 12) then Err(ValueError("month must be in 1..12"))
    else if !(1 <= d <= DaysInMonth(y, m)) then Err(ValueError("day is out of range for month"))
    else Ok(Date(y, m, d))
  }

  /** Date comparison: by year, then month, then day. */
  predicate Before(a: Date, b: Date) {
    a.year < b.year || (a.year == b.year && (a.month < b.month || (a.month == b.month && a.day < b.day)))
  }

  predicate BeforeEq(a: Date, b: Date) {
    a == b || Before(a, b)
  }

  /** `'%04d' % n` for `0 <= n < 10000`. */
  function Zero4(n: nat): (r: string)
    requires n < 10000
    ensures |r| == 4 && AllDigits(r) && DigitsValue(r) == n
  {
    var a, b, c, e := DigitChar(n / 1000), DigitChar(n / 100 % 10), DigitChar(n / 10 % 10), DigitChar(n % 10);
    var r := [a, b, c, e];
    assert r[..3] == [a, b, c] && [a, b, c][..2] == [a, b] && [a, b][..1] == [a] && [a][..0] == [];
    assert n / 1000 == n / 100 / 10 && n / 100 == n / 10 / 10;
    assert DigitsValue([a]) == n / 100 / 10;
    assert DigitsValue([a, b]) == n / 100;
    assert DigitsValue([a, b, c]) == n / 10;
    r
  }

  /** `'%02d' % n` for `0 <= n < 100`. */
  function Zero2(n: nat): (r: string)
    requires n < 100
    ensures |r| == 2 && AllDigits(r) && DigitsValue(r) == n
  {
    var a, b := DigitChar(n / 10), DigitChar(n % 10);
    var r := [a, b];
    assert r[..1] == [a] && [a][..0] == [];
    assert DigitsValue([a]) == n / 10;
    r
  }

  /** `date.isoformat()`: "YYYY-MM-DD" (the calendar date in the extended format of
      ISO 8601, section 4.1.2.2). */
  function IsoFormat(d: Date): (r: string)
    requires Valid(d)
    ensures |r| == 10 && r[4] == '-' && r[7] == '-'
  {
    Zero4(d.year) + "-" + Zero2(d.month) + "-" + Zero2(d.day)
  }

  /** The ISO text determines the date. */
  lemma {:induction false} IsoFormatInjective(a: Date, b: Date)
    requires Valid(a) && Valid(b) && IsoFormat(a) == IsoFormat(b)
    ensures a == b
  {
    var s, t := IsoFormat(a), IsoFormat(b);
    assert s[..4] == Zero4(a.year) && t[..4] == Zero4(b.year);
    assert s[5..7] == Zero2(a.month) && t[5..7] == Zero2(b.month);
    assert s[8..] == Zero2(a.day) && t[8..] == Zero2(b.day);
  }

  /** `date + timedelta(days=1)`; past 9999-12-31 Python raises `OverflowError`. */
  function NextDay(d: Date): (r: Result<Date, PyError>)
    requires Valid(d)
    ensures r.Ok? ==> Valid(r.value) && Before(d, r.value)
    ensures r.Err? <==> d == Date(9999, 12, 31)
  {
    if d.day < DaysInMonth(d.year, d.month) then Ok(Date(d.year, d.month, d.day + 1))
    else if d.month < 12 then Ok(Date(d.year, d.month + 1, 1))
    else if d.year < 9999 then Ok(Date(d.year + 1, 1, 1))
    else Err(OverflowError)
  }

  /** Nothing lies strictly between a date and the next. */
  lemma {:induction false} NextDayAdjacent(d: Date, e: Date)
    requires Valid(d) && Valid(e) && NextDay(d).Ok?
    ensures Before(d, e) <==> BeforeEq(NextDay(d).value, e)
  {
  }

  lemma {:induction false} BeforeFacts()
    ensures forall a: Date :: !Before(a, a)
    ensures forall a: Date, b: Date, c: Date :: Before(a, b) && Before(b, c) ==> Before(a, c)
    ensures forall a: Date, b: Date :: a == b || Before(a, b) || Before(b, a)
  {
  }
  // ---------------------------------------------------------------------------------------
  // `sorted()` over dates (and over their ISO texts, which sort the same way)

  /** Every date in an ascending sequence comes before the ones after it. */
  predicate AscendingDates(s: seq<Date>) {
    forall i, j :: 0 <= i < j < |s| ==> Before(s[i], s[j])
  }

  lemma {:induction false} LeastDateExists(s: set<Date>)
    requires s != {}
    ensures exists m :: m in s && forall x :: x in s ==> BeforeEq(m, x)
    decreases |s|
  {
    BeforeFacts();
    var y :| y in s;
    if s - {y} == {} {
      assert s == {y};
      assert forall x :: x in s ==> BeforeEq(y, x);
    } else {
      LeastDateExists(s - {y});
      var m :| m in s - {y} && forall x :: x in s - {y} ==> BeforeEq(m, x);
      if Before(y, m) {
        forall x | x in s ensures BeforeEq(y, x) {
          if x != y { assert x in s - {y}; }
        }
      } else {
        forall x | x in s ensures BeforeEq(m, x) {
          if x != y { assert x in s - {y}; }
        }
      }
    }
  }

  /** The earliest date of a non-empty set. */
  function LeastDate(s: set<Date>): (m: Date)
    requires s != {}
    ensures m in s && forall x :: x in s ==> BeforeEq(m, x)
  {
    LeastDateExists(s);
    var m :| m in s && forall x :: x in s ==> BeforeEq(m, x); m
  }

  /** `sorted(dates)`: the dates of `s`, earliest first (lemma `SortedDatesAscending`). */
  function SortedDates(s: set<Date>): (r: seq<Date>)
    ensures |r| == |s|
    ensures forall x :: x in r <==> x in s
    decreases |s|
  {
    if s == {} then []
    else
      var m := LeastDate(s);
      [m] + SortedDates(s - {m})
  }

  /** The sorted dates ascend. */
  lemma {:induction false} SortedDatesAscending(s: set<Date>)
    ensures AscendingDates(SortedDates(s))
    decreases |s|
  {
    if s != {} {
      var m := LeastDate(s);
      var rest := SortedDates(s - {m});
      SortedDatesAscending(s - {m});
      forall j | 0 <= j < |rest| ensures Before(m, rest[j]) {
        assert rest[j] in s - {m};
      }
      var r := SortedDates(s);
      assert r == [m] + rest;
      forall i, j | 0 <= i < j < |r| ensures Before(r[i], r[j]) {
        if i > 0 {
          assert r[i] == rest[i - 1] && r[j] == rest[j - 1];
        } else {
          assert r[j] == rest[j - 1];
        }
      }
    }
  }

  /** An ascending sequence of dates is determined by its elements. */
  lemma {:induction false} AscendingDatesUnique(a: seq<Date>, b: seq<Date>)
    requires AscendingDates(a) && AscendingDates(b)
    requires forall x :: x in a <==> x in b
    ensures a == b
    decreases |a| + |b|, |b|
  {
    BeforeFacts();
    if |a| > 0 {
      assert a[0] in a;
      var k :| 0 <= k < |b| && b[k] == a[0];
      assert b[0] in b;
      var j :| 0 <= j < |a| && a[j] == b[0];
      assert BeforeEq(b[0], b[k]) && BeforeEq(a[0], a[j]);
      assert a[0] == b[0];
      forall x ensures x in a[1..] <==> x in b[1..] {
        if x in a[1..] {
          var i :| 1 <= i < |a| && a[i] == x;
          assert x in b;
          var i' :| 0 <= i' < |b| && b[i'] == x;
          assert b[1..][i' - 1] == x;
        }
        if x in b[1..] {
          var i :| 1 <= i < |b| && b[i] == x;
          assert x in a;
          var i' :| 0 <= i' < |a| && a[i'] == x;
          assert a[1..][i' - 1] == x;
        }
      }
      AscendingDatesUnique(a[1..], b[1..]);
      assert a == [a[0]] + a[1..] && b == [b[0]] + b[1..];
    } else if |b| > 0 {
      AscendingDatesUnique(b, a);
    }
  }
}
