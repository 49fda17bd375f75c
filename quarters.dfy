/** Calendar quarters: the month-to-quarter tables, the "YYYY Qq" keys, the alignment of a
    date to the start of its quarter, the step to the next quarter, and the running
    (year, quarter) counters of the output tables. */
module Quarters {
  import opened Wrappers
  import opened Numerals
  import opened Calendar

  /** The quarter a month falls in. */
  function QuarterOf(m: int): (q: int)
    requires 1 <= m <= 12
    ensures 1 <= q <= 4 && 3 * (q - 1) + 1 <= m <= 3 * q
  {
    (m - 1) / 3 + 1
  }

  /** `_get_month_quarter_lookup_table` (afr_viz_csv.py): month number to quarter number. */
  function MonthQuarterLookupTable(): (t: map<int, int>)
    ensures forall m :: m in t <==> 1 <= m <= 12
    ensures forall m :: m in t ==> 3 * (t[m] - 1) + 1 <= m <= 3 * t[m]
  {
    map[1 := 1, 2 := 1, 3 := 1, 4 := 2, 5 := 2, 6 := 2,
        7 := 3, 8 := 3, 9 := 3, 10 := 4, 11 := 4, 12 := 4]
  }

  /** `_month_quarter_map` (afr_parquet_to_quarterly_csv.py): two-digit month text to quarter
      digit. */
  function MonthQuarterMap(): (t: map<string, string>)
    ensures forall m :: 1 <= m <= 12 ==> Zero2(m) in t && t[Zero2(m)] == Decimal(QuarterOf(m))
    ensures forall k :: k in t ==> exists m :: 1 <= m <= 12 && k == Zero2(m)
  {
    var t := map["01" := "1", "02" := "1", "03" := "1", "04" := "2", "05" := "2", "06" := "2",
                 "07" := "3", "08" := "3", "09" := "3", "10" := "4", "11" := "4", "12" := "4"];
    MonthKeys(t);
    MonthKeysOnly(t);
    t
  }

  lemma {:induction false} MonthKeys(t: map<string, string>)
    requires t == map["01" := "1", "02" := "1", "03" := "1", "04" := "2", "05" := "2", "06" := "2",
                      "07" := "3", "08" := "3", "09" := "3", "10" := "4", "11" := "4", "12" := "4"]
    ensures forall m :: 1 <= m <= 12 ==> Zero2(m) in t && t[Zero2(m)] == Decimal(QuarterOf(m))
  {
    forall m | 1 <= m <= 12 ensures Zero2(m) in t && t[Zero2(m)] == Decimal(QuarterOf(m)) {
      var z := Zero2(m);
      if m <= 6 {
        if m == 1 { assert z == "01"; }
        else if m == 2 { assert z == "02"; }
        else if m == 3 { assert z == "03"; }
        else if m == 4 { assert z == "04"; }
        else if m == 5 { assert z == "05"; }
        else { assert z == "06"; }
      } else {
        if m == 7 { assert z == "07"; }
        else if m == 8 { assert z == "08"; }
        else if m == 9 { assert z == "09"; }
        else if m == 10 { assert z == "10"; }
        else if m == 11 { assert z == "11"; }
        else { assert z == "12"; }
      }
    }
  }

  lemma {:induction false} MonthKeysOnly(t: map<string, string>)
    requires t == map["01" := "1", "02" := "1", "03" := "1", "04" := "2", "05" := "2", "06" := "2",
                      "07" := "3", "08" := "3", "09" := "3", "10" := "4", "11" := "4", "12" := "4"]
    ensures forall k :: k in t ==> exists m :: 1 <= m <= 12 && k == Zero2(m)
  {
    forall k | k in t ensures exists m :: 1 <= m <= 12 && k == Zero2(m) {
      if k == "01" { assert k == Zero2(1); }
      else if k == "02" { assert k == Zero2(2); }
      else if k == "03" { assert k == Zero2(3); }
      else if k == "04" { assert k == Zero2(4); }
      else if k == "05" { assert k == Zero2(5); }
      else if k == "06" { assert k == Zero2(6); }
      else if k == "07" { assert k == Zero2(7); }
      else if k == "08" { assert k == Zero2(8); }
      else if k == "09" { assert k == Zero2(9); }
      else if k == "10" { assert k == Zero2(10); }
      else if k == "11" { assert k == Zero2(11); }
      else { assert k == Zero2(12); }
    }
  }

  /** Python's `s[i:j]` for `0 <= i` and `0 <= j`: out-of-range bounds are clipped. */
  function Slice(s: string, i: nat, j: nat): (r: string)
    ensures |r| == if i < j && i < |s| then (if j < |s| then j else |s|) - i else 0
  {
    var hi := if j < |s| then j else |s|;
    if i < hi then s[i..hi] else ""
  }

  /** `_convert_date_to_year_quarter`: the first four characters, " Q", and the quarter the
      month characters (positions 5 and 6) name; a month text outside "01".."12" is a
      `KeyError` carrying that text. */
  function YearQuarterOfIso(s: string): (r: Result<string, PyError>)
    ensures r.Err? <==> forall m :: 1 <= m <= 12 ==> Slice(s, 5, 7) != Zero2(m)
    ensures r.Err? ==> r.error == KeyError(Slice(s, 5, 7))
    ensures r.Ok? ==> exists m :: (1 <= m <= 12 && Slice(s, 5, 7) == Zero2(m)
      && r.value == Slice(s, 0, 4) + " Q" + Decimal(QuarterOf(m)))
  {
    var key := Slice(s, 5, 7);
    var table := MonthQuarterMap();
    if key in table then Ok(Slice(s, 0, 4) + " Q" + table[key]) else Err(KeyError(key))
  }

  /** On an ISO date the key is the four-digit year and the quarter of the month. */
  lemma {:induction false} YearQuarterOfDate(d: Date)
    requires Valid(d)
    ensures YearQuarterOfIso(IsoFormat(d)) == Ok(Zero4(d.year) + " Q" + Decimal(QuarterOf(d.month)))
  {
    var s := IsoFormat(d);
    assert Slice(s, 5, 7) == Zero2(d.month);
    assert Slice(s, 0, 4) == Zero4(d.year);
    var r := YearQuarterOfIso(s);
    var m :| 1 <= m <= 12 && Slice(s, 5, 7) == Zero2(m) && r.value == Slice(s, 0, 4) + " Q" + Decimal(QuarterOf(m));
    assert DigitsValue(Zero2(m)) == m;
  }

  /** `f"{year} Q{quarter}"`, the key afr_viz_csv.py and generate_drive_distribution_csv.py
      build from a date's fields. */
  function QuarterLabel(year: nat, quarter: nat): string {
    Decimal(year) + " Q" + Decimal(quarter)
  }

  /** The two ways of building a quarter key agree on every date from year 1000 on. */
  lemma {:induction false} QuarterKeysAgree(d: Date)
    requires Valid(d) && d.year >= 1000
    ensures YearQuarterOfIso(IsoFormat(d)) == Ok(QuarterLabel(d.year, QuarterOf(d.month)))
  {
    YearQuarterOfDate(d);
    FourDigits(d.year);
  }

  lemma {:induction false} FourDigits(y: nat)
    requires 1000 <= y <= 9999
    ensures Zero4(y) == Decimal(y)
  {
    assert Decimal(y / 1000) == [DigitChar(y / 1000)];
    assert y / 10 / 10 / 10 == y / 1000 && y / 10 / 10 % 10 == y / 100 % 10;
    assert Decimal(y / 10 / 10) == [DigitChar(y / 1000), DigitChar(y / 100 % 10)];
  }

  /** The quarter starts of afr_viz_csv_from_iceberg.py: day 1 of January, April, July or
      October. */
  predicate QuarterStart(d: Date) {
    Valid(d) && d.day == 1 && (d.month == 1 || d.month == 4 || d.month == 7 || d.month == 10)
  }

  /** Quarters counted from year 0, so that consecutive quarters differ by one. */
  function QuarterIndex(d: Date): int
    requires Valid(d)
  {
    4 * d.year + QuarterOf(d.month) - 1
  }

  /** The first month of the quarter holding month `m` (10, 7, 4 or 1). */
  function QuarterStartMonth(m: int): (r: int)
    requires 1 <= m <= 12
    ensures r == 3 * (QuarterOf(m) - 1) + 1
    ensures r <= m < r + 3
  {
    if m >= 10 then 10 else if m >= 7 then 7 else if m >= 4 then 4 else 1
  }

  /** Day 1 of the quarter that holds `d`: the first quarter start at or after `d`'s quarter
      and not after `d` itself. */
  function AlignToQuarter(d: Date): (r: Date)
    requires Valid(d)
    ensures QuarterStart(r) && QuarterIndex(r) == QuarterIndex(d) && BeforeEq(r, d)
  {
    Date(d.year, QuarterStartMonth(d.month), 1)
  }

  /** `_increment_datetime_one_quarter`: month `(m + 3) % 12`, year bumped only when that
      month is 1, day 1. September gives month 0 and October of year 9999 gives year 10000,
      and `datetime.date` rejects both. */
  function IncrementQuarter(d: Date): (r: Result<Date, PyError>)
    requires Valid(d)
    ensures r.Err? <==> d.month == 9 || (d.month == 10 && d.year == 9999)
    ensures r.Ok? ==> Valid(r.value) && r.value.day == 1
  {
    var month := (d.month + 3) % 12;
    var year := if month == 1 then d.year + 1 else d.year;
    MakeDate(year, month, 1)
  }

  /** From a quarter start, the step lands on the next quarter start. */
  lemma {:induction false} IncrementQuarterStep(d: Date)
    requires QuarterStart(d) && !(d.month == 10 && d.year == 9999)
    ensures IncrementQuarter(d).Ok?
    ensures QuarterStart(IncrementQuarter(d).value)
    ensures QuarterIndex(IncrementQuarter(d).value) == QuarterIndex(d) + 1
    ensures Before(d, IncrementQuarter(d).value)
  {
    var next := if d.month == 10 then Date(d.year + 1, 1, 1) else Date(d.year, d.month + 3, 1);
    assert (d.month + 3) % 12 == next.month;
    assert Valid(next) by { assert DaysInMonth(next.year, next.month) >= 28; }
    assert IncrementQuarter(d) == Ok(next);
    assert QuarterOf(next.month) == (if d.month == 10 then 1 else QuarterOf(d.month) + 1);
  }

  /** The row counters of the output tables: data row `i` (from 0) is labelled year
      `i / 4 + 1`, quarter `i % 4 + 1`; the labels number the rows one to one. */
  function DisplayLabel(i: nat): (yq: (nat, nat))
    ensures yq.0 >= 1 && 1 <= yq.1 <= 4
    ensures 4 * (yq.0 - 1) + (yq.1 - 1) == i
  {
    (i / 4 + 1, i % 4 + 1)
  }
}
