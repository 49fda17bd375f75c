/** generate_drive_distribution_csv.py: the model cleaner that promotes a recognised last
    token, the per-(date, model) daily counts, the quarterly MAX aggregation, the
    minimum-drive filter and the sorted list of drive columns. Dates are calendar dates.
    This assumes every key is a canonical "YYYY-MM-DD" text: only for those do the ISO
    texts the script keys its dictionary with sort and compare as the dates do. */
module DriveDistribution {
  import opened Wrappers
  import opened Order
  import opened Text
  import opened Numerals
  import opened Calendar
  import opened Quarters
  import opened Tallies
  import opened Patterns

  // ---------------------------------------------------------------------------------------
  // `_clean_drive_model_str`

  /** The length of the run of ASCII digits at the front of `s`. */
  function DigitRun(s: string): (n: nat)
    ensures n <= |s|
    ensures forall i :: 0 <= i < n ==> IsDigit(s[i])
    ensures n < |s| ==> !IsDigit(s[n])
    decreases |s|
  {
    if |s| > 0 && IsDigit(s[0]) then 1 + DigitRun(s[1..]) else 0
  }

  /** `re.match(r'[HW]UH72\d+', s)`. */
  predicate UltrastarPrefix(s: string) {
    |s| >= 6 && (s[0] == 'H' || s[0] == 'W') && s[1..5] == "UH72" && IsDigit(s[5])
  }

  /** `re.match(r'ST\d+NM', s)`: "ST", the whole run of digits after it (at least one),
      then "NM". Backtracking cannot help, since 'N' is not a digit. */
  predicate StNmPrefix(s: string) {
    |s| >= 2 && s[..2] == "ST"
    && var n := DigitRun(s[2..]);
       n > 0 && |s| >= n + 4 && s[n + 2..n + 4] == "NM"
  }

  /** Every character of `s[a..b]` is a digit. */
  predicate DigitsBetween(s: string, a: nat, b: nat)
    requires a <= b <= |s|
  {
    forall i :: a <= i < b ==> IsDigit(s[i])
  }

  /** The regular expression's own reading: "ST", then a non-empty run of digits ending at
      some position `e`, then "NM" at `e`. */
  lemma {:induction false} StNmPrefixMeans(s: string)
    ensures StNmPrefix(s) <==>
      (|s| >= 2 && s[..2] == "ST"
       && exists e :: 3 <= e && e + 2 <= |s| && DigitsBetween(s, 2, e) && s[e..e + 2] == "NM")
  {
    if |s| >= 2 && s[..2] == "ST" {
      var n := DigitRun(s[2..]);
      if n > 0 && |s| >= n + 4 && s[n + 2..n + 4] == "NM" {
        assert forall i :: 0 <= i < n ==> s[2..][i] == s[i + 2];
        assert DigitsBetween(s, 2, n + 2);
      }
      forall e | 3 <= e && e + 2 <= |s| && DigitsBetween(s, 2, e) && s[e..e + 2] == "NM"
        ensures StNmPrefix(s)
      {
        assert s[e..e + 2][0] == s[e];
        assert forall i :: 0 <= i < e - 2 ==> s[2..][i] == s[i + 2];
        assert s[2..][e - 2] == s[e];
      }
    }
  }

  /** `re.match(r'MG\d{2}', s)`. */
  predicate MgPrefix(s: string) {
    |s| >= 4 && s[..2] == "MG" && IsDigit(s[2]) && IsDigit(s[3])
  }

  /** The last token promoted to the model name: it starts with one of the three model
      codes the script recognises. */
  predicate OfInterest(token: string) {
    UltrastarPrefix(token) || StNmPrefix(token) || MgPrefix(token)
  }

  /** `_clean_drive_model_str`: whitespace stripped and collapsed; when that leaves more
      than one space-separated token and the last starts with a recognised model code, the
      last token alone. */
  function CleanModel(raw: string): string {
    var clean := Clean(raw);
    var tokens := SplitOn(clean, ' ');
    if |tokens| > 1 && OfInterest(tokens[|tokens| - 1]) then tokens[|tokens| - 1] else clean
  }

  /** The cleaner in terms of the words of `raw`: the last word when there are several and
      it is a recognised model code, and otherwise all words joined by single spaces. */
  lemma {:induction false} CleanModelMeans(raw: string)
    ensures var words := Split(raw);
      CleanModel(raw) ==
        if |words| > 1 && OfInterest(words[|words| - 1]) then words[|words| - 1]
        else Join(" ", words)
  {
    SplitOnClean(raw);
    CleanIsJoinedSplit(raw);
  }

  /** A single word comes back unchanged. */
  lemma {:induction false} WordIsFixed(word: string)
    requires IsToken(word)
    ensures CleanModel(word) == word
  {
    SplitToken(word, "");
    assert word + "" == word;
    CleanModelMeans(word);
  }

  /** Words joined by single spaces come back unchanged unless a recognised code ends a
      list of several. */
  lemma {:induction false} JoinedIsFixed(words: seq<string>)
    requires forall i :: 0 <= i < |words| ==> IsToken(words[i])
    requires !(|words| > 1 && OfInterest(words[|words| - 1]))
    ensures CleanModel(Join(" ", words)) == Join(" ", words)
  {
    var joined := Join(" ", words);
    SplitJoin(words);
    assert Split(joined) == words;
    CleanModelMeans(joined);
  }

  /** Cleaning a cleaned name changes nothing. */
  lemma {:induction false} CleanModelIdempotent(raw: string)
    ensures CleanModel(CleanModel(raw)) == CleanModel(raw)
  {
    var words := Split(raw);
    CleanModelMeans(raw);
    if |words| > 1 && OfInterest(words[|words| - 1]) {
      WordIsFixed(words[|words| - 1]);
    } else {
      JoinedIsFixed(words);
    }
  }

  /** "WDC WUH721816ALE6L4" and "WUH721816ALE6L4" are counted as one model: a
      manufacturer word in front of a recognised code is dropped. */
  lemma {:induction false} PromotesModelCode(maker: string, code: string)
    requires IsToken(maker) && IsToken(code) && OfInterest(code)
    ensures CleanModel(maker + " " + code) == code
    ensures CleanModel(code) == code
  {
    assert Join(" ", [maker, code]) == maker + " " + code;
    SplitJoin([maker, code]);
    CleanModelMeans(maker + " " + code);
    WordIsFixed(code);
  }

  // ---------------------------------------------------------------------------------------
  // `_get_daily_drive_distribution`

  /** A row of the Trino CSV: the raw model, the day, and the `model_count` text. */
  datatype TrinoRow = TrinoRow(model: string, date: Date, modelCount: string)

  /** One row: skipped unless some pattern matches the start of its cleaned model;
      otherwise `int(model_count)` (which may raise) is added to the cell of its date and
      cleaned model, created at zero. */
  function DailyStep(table: map<Date, map<string, int>>, row: TrinoRow,
                     matches: (string, string) -> bool, patterns: seq<string>)
    : Result<map<Date, map<string, int>>, PyError>
  {
    var model := CleanModel(row.model);
    if !AnyMatch(matches, patterns, model) then Ok(table)
    else
      var n := ParseInt(row.modelCount);
      if n.Err? then Err(n.error) else Ok(Bump(table, row.date, model, n.value))
  }

  /** The table after the rows in order; the first error ends the run. */
  function DailyTable(rows: seq<TrinoRow>, matches: (string, string) -> bool,
                      patterns: seq<string>): Result<map<Date, map<string, int>>, PyError>
    decreases |rows|
  {
    if |rows| == 0 then Ok(map[])
    else
      var before := DailyTable(rows[..|rows| - 1], matches, patterns);
      if before.Err? then before else DailyStep(before.value, rows[|rows| - 1], matches, patterns)
  }

  /** Once a prefix has failed, so has every longer run. */
  lemma {:induction false} DailyErrPersists(rows: seq<TrinoRow>, i: nat,
                                            matches: (string, string) -> bool, patterns: seq<string>)
    requires i <= |rows| && DailyTable(rows[..i], matches, patterns).Err?
    ensures DailyTable(rows, matches, patterns) == DailyTable(rows[..i], matches, patterns)
    decreases |rows|
  {
    if i < |rows| {
      var init := rows[..|rows| - 1];
      assert init[..i] == rows[..i];
      DailyErrPersists(init, i, matches, patterns);
    } else {
      assert rows[..i] == rows;
    }
  }

  /** The row loop, with the inner pattern loop and its `break`. */
  method GetDailyDriveDistribution(rows: seq<TrinoRow>, matches: (string, string) -> bool,
                                   patterns: seq<string>)
    returns (r: Result<map<Date, map<string, int>>, PyError>)
    ensures r == DailyTable(rows, matches, patterns)
  {
    var daily: map<Date, map<string, int>> := map[];
    for i := 0 to |rows|
      invariant DailyTable(rows[..i], matches, patterns) == Ok(daily)
    {
      assert rows[..i + 1][..i] == rows[..i];
      var model := CleanModel(rows[i].model);
      var hit := ScanPatterns(matches, patterns, model);
      if hit.Some? {
        var n := ParseInt(rows[i].modelCount);
        if n.Err? {
          DailyErrPersists(rows, i + 1, matches, patterns);
          return Err(n.error);
        }
        daily := Bump(daily, rows[i].date, model, n.value);
      }
    }
    assert rows[..|rows|] == rows;
    return Ok(daily);
  }

  /** The row's `int(model_count)`, or 0 when it does not parse. */
  function CountOf(row: TrinoRow): int {
    var n := ParseInt(row.modelCount);
    if n.Ok? then n.value else 0
  }

  /** Whether a row is kept, and kept under `date` and `model`. */
  predicate KeptAs(row: TrinoRow, matches: (string, string) -> bool, patterns: seq<string>,
                   date: Date, model: string)
  {
    row.date == date && CleanModel(row.model) == model && AnyMatch(matches, patterns, model)
  }

  /** The sum of a list of counts. */
  function Total(s: seq<int>): int
    decreases |s|
  {
    if |s| == 0 then 0 else Total(s[..|s| - 1]) + s[|s| - 1]
  }

  /** The counts of the rows kept under `date` and `model`, in row order. */
  function KeptCounts(rows: seq<TrinoRow>, matches: (string, string) -> bool,
                      patterns: seq<string>, date: Date, model: string): seq<int>
    decreases |rows|
  {
    if |rows| == 0 then []
    else
      var last := rows[|rows| - 1];
      KeptCounts(rows[..|rows| - 1], matches, patterns, date, model)
        + (if KeptAs(last, matches, patterns, date, model) then [CountOf(last)] else [])
  }

  /** One row adds its count to its own cell, when kept, and to no other. */
  lemma {:induction false} DailyStepCell(before: map<Date, map<string, int>>, row: TrinoRow,
                      matches: (string, string) -> bool, patterns: seq<string>,
                      date: Date, model: string)
    requires DailyStep(before, row, matches, patterns).Ok?
    ensures var after := DailyStep(before, row, matches, patterns).value;
      var kept := KeptAs(row, matches, patterns, date, model);
      IntAt(after, date, model) == IntAt(before, date, model) + (if kept then CountOf(row) else 0)
      && ((date in after && model in after[date]) <==> (date in before && model in before[date]) || kept)
  {
    var c := CleanModel(row.model);
    if AnyMatch(matches, patterns, c) {
      BumpElsewhere(before, row.date, c, CountOf(row));
    }
  }

  /** Each cell holds the sum of the counts of the rows kept under its date and model, and
      a cell exists exactly when at least one such row does. */
  lemma {:induction false} DailyCell(rows: seq<TrinoRow>, matches: (string, string) -> bool,
                                     patterns: seq<string>, date: Date, model: string)
    requires DailyTable(rows, matches, patterns).Ok?
    ensures var t := DailyTable(rows, matches, patterns).value;
      IntAt(t, date, model) == Total(KeptCounts(rows, matches, patterns, date, model))
      && ((date in t && model in t[date]) <==> |KeptCounts(rows, matches, patterns, date, model)| > 0)
    decreases |rows|
  {
    if |rows| > 0 {
      var init := rows[..|rows| - 1];
      var last := rows[|rows| - 1];
      DailyCell(init, matches, patterns, date, model);
      DailyStepCell(DailyTable(init, matches, patterns).value, last, matches, patterns, date, model);
      var kc := KeptCounts(init, matches, patterns, date, model);
      if KeptAs(last, matches, patterns, date, model) {
        assert (kc + [CountOf(last)])[..|kc|] == kc;
        assert Total(kc + [CountOf(last)]) == Total(kc) + CountOf(last);
      } else {
        assert kc + [] == kc;
      }
    }
  }

  // ---------------------------------------------------------------------------------------
  // `_aggregate_data`

  /** One quarter of the aggregated data: its "YYYY Qq" label and, per drive, the largest
      daily count seen in it. */
  datatype QuarterDrives = QuarterDrives(quarter: string, drives: map<string, int>)

  /** Python's `max(a, b)`. */
  function Max(a: int, b: int): (r: int)
    ensures r >= a && r >= b && (r == a || r == b)
  {
    if b > a then b else a
  }

  /** The value of `m` in `acc`, or the 0 the script creates it at. */
  function ValueOr0(acc: map<string, int>, m: string): int {
    if m in acc then acc[m] else 0
  }

  /** One day folded into a quarter: `acc[m] = max(acc.get(m, 0), day[m])` for each drive
      of the day. */
  function MaxInto(acc: map<string, int>, day: map<string, int>): (r: map<string, int>)
    ensures r.Keys == acc.Keys + day.Keys
  {
    map m | m in acc.Keys + day.Keys :: if m in day then Max(ValueOr0(acc, m), day[m]) else acc[m]
  }

  /** `r` is `acc` with the drives in `seen` of the day folded in. */
  predicate MergedSoFar(acc: map<string, int>, day: map<string, int>, seen: set<string>,
                        r: map<string, int>)
  {
    seen <= day.Keys && r.Keys == acc.Keys + seen
    && forall m :: m in r ==> r[m] == if m in seen then Max(ValueOr0(acc, m), day[m]) else acc[m]
  }

  /** Folding in one more drive of the day. */
  lemma {:induction false} MergeOne(acc: map<string, int>, day: map<string, int>, seen: set<string>,
                 r: map<string, int>, m: string)
    requires MergedSoFar(acc, day, seen, r) && m in day
    ensures MergedSoFar(acc, day, seen + {m}, r[m := Max(ValueOr0(r, m), day[m])])
  {
  }

  /** Once every drive of the day is in, the fold is complete. */
  lemma {:induction false} MergeAll(acc: map<string, int>, day: map<string, int>, r: map<string, int>)
    requires MergedSoFar(acc, day, day.Keys, r)
    ensures r == MaxInto(acc, day)
  {
    assert r.Keys == MaxInto(acc, day).Keys;
  }

  /** Folding a day in never lowers a value, and raises it to at least the day's count. */
  lemma {:induction false} MaxIntoGrows(acc: map<string, int>, day: map<string, int>, m: string)
    ensures ValueOr0(MaxInto(acc, day), m) >= ValueOr0(acc, m)
    ensures m in day ==> m in MaxInto(acc, day) && MaxInto(acc, day)[m] >= day[m]
  {
  }

  /** The loop over the drives of one day. */
  method MergeDay(acc: map<string, int>, day: map<string, int>) returns (r: map<string, int>)
    ensures r == MaxInto(acc, day)
  {
    var models := Enumerate(day.Keys);
    r := acc;
    ghost var seen: set<string> := {};
    for i := 0 to |models|
      invariant MergedSoFar(acc, day, seen, r)
      invariant forall j :: 0 <= j < i ==> models[j] in seen
    {
      var m := models[i];
      MergeOne(acc, day, seen, r, m);
      r := r[m := Max(ValueOr0(r, m), day[m])];
      seen := seen + {m};
    }
    assert seen == day.Keys;
    MergeAll(acc, day, r);
  }

  /** The last day of the quarter holding `d`: March 31, June 30, September 30 or
      December 31 of its year. */
  function QuarterEnd(d: Date): (e: Date)
    requires Valid(d)
    ensures Valid(e) && e.year == d.year && QuarterOf(e.month) == QuarterOf(d.month)
    ensures e.month == 3 * QuarterOf(d.month) && e.day == DaysInMonth(e.year, e.month)
    ensures BeforeEq(d, e)
  {
    if d.month <= 3 then Date(d.year, 3, 31)
    else if d.month <= 6 then Date(d.year, 6, 30)
    else if d.month <= 9 then Date(d.year, 9, 30)
    else Date(d.year, 12, 31)
  }

  /** The day after a quarter's last day starts the next quarter. */
  lemma {:induction false} NextQuarter(d: Date)
    requires Valid(d) && NextDay(QuarterEnd(d)).Ok?
    ensures QuarterStart(NextDay(QuarterEnd(d)).value)
    ensures QuarterIndex(NextDay(QuarterEnd(d)).value) == QuarterIndex(d) + 1
    ensures var n := NextDay(QuarterEnd(d)).value; (n.year, QuarterOf(n.month)) == QuarterAfter(d.year, QuarterOf(d.month))
  {
  }

  /** Later dates lie in the same or a later quarter. */
  lemma {:induction false} QuarterIndexMonotone(a: Date, b: Date)
    requires Valid(a) && Valid(b) && BeforeEq(a, b)
    ensures QuarterIndex(a) <= QuarterIndex(b)
  {
  }

  /** The inner `while`: pop dates off the front of the sorted list, folding each day into
      the quarter's maxima, until the date popped is the quarter's last day. Popping an
      empty list raises IndexError. `curr` starts at the quarter's first date, which is not
      popped by itself. */
  function Consume(daily: map<Date, map<string, int>>, dates: seq<Date>, curr: Date,
                   ending: Date, acc: map<string, int>)
    : (r: Result<(seq<Date>, map<string, int>), PyError>)
    requires forall i :: 0 <= i < |dates| ==> dates[i] in daily
    ensures r.Ok? ==> |r.value.0| <= |dates| && r.value.0 == dates[|dates| - |r.value.0|..]
    ensures r.Err? ==> r.error == IndexError
    decreases |dates|
  {
    if curr == ending then Ok((dates, acc))
    else if |dates| == 0 then Err(IndexError)
    else Consume(daily, dates[1..], dates[0], ending, MaxInto(acc, daily[dates[0]]))
  }

  /** The quarter after quarter `quarter` of `year`: Q4 is followed by Q1 of the next
      year. */
  function QuarterAfter(year: nat, quarter: nat): (nat, nat) {
    if quarter == 4 then (year + 1, 1) else (year, quarter + 1)
  }

  /** The year and quarter `k` quarters after quarter `quarter` of `year`. */
  function NthQuarter(year: nat, quarter: nat, k: nat): (nat, nat)
    decreases k
  {
    if k == 0 then (year, quarter)
    else
      var p := NthQuarter(year, quarter, k - 1);
      QuarterAfter(p.0, p.1)
  }

  /** Counting `k` quarters on is counting `k - 1` on from the next quarter. */
  lemma {:induction false} NthQuarterShift(year: nat, quarter: nat, k: nat)
    requires k >= 1
    ensures var p := QuarterAfter(year, quarter); NthQuarter(year, quarter, k) == NthQuarter(p.0, p.1, k - 1)
    decreases k
  {
    if k > 1 {
      NthQuarterShift(year, quarter, k - 1);
    }
  }

  /** The label of the quarter `k` quarters after quarter `quarter` of `year`. */
  function NthLabel(year: nat, quarter: nat, k: nat): string {
    var p := NthQuarter(year, quarter, k);
    QuarterLabel(p.0, p.1)
  }

  lemma {:induction false} NthLabelShift(year: nat, quarter: nat, k: nat)
    requires k >= 1
    ensures var p := QuarterAfter(year, quarter); NthLabel(year, quarter, k) == NthLabel(p.0, p.1, k - 1)
  {
    NthQuarterShift(year, quarter, k);
  }

  /** One turn of the outer `while`: the quarter holding `start`, the dates it left, and
      the first day of the next quarter. `fromisoformat(f"{year}-03-31")` rejects a year
      of fewer than four digits, and the day after 9999-12-31 overflows. */
  function Turn(daily: map<Date, map<string, int>>, dates: seq<Date>, start: Date)
    : (r: Result<(QuarterDrives, seq<Date>, Date), PyError>)
    requires Valid(start)
    requires forall i :: 0 <= i < |dates| ==> dates[i] in daily
    ensures r.Ok? ==> QuarterStart(r.value.2) && QuarterIndex(r.value.2) == QuarterIndex(start) + 1
    ensures r.Ok? ==> (r.value.2.year, QuarterOf(r.value.2.month)) == QuarterAfter(start.year, QuarterOf(start.month))
    ensures r.Ok? ==> r.value.0.quarter == QuarterLabel(start.year, QuarterOf(start.month))
    ensures r.Ok? ==> |r.value.1| <= |dates| && r.value.1 == dates[|dates| - |r.value.1|..]
  {
    if start.year < 1000 then Err(ValueError("Invalid isoformat string"))
    else
      var ending := QuarterEnd(start);
      var consumed := Consume(daily, dates, start, ending, map[]);
      if consumed.Err? then Err(consumed.error)
      else
        var next := NextDay(ending);
        if next.Err? then Err(next.error)
        else
          NextQuarter(start);
          Ok((QuarterDrives(QuarterLabel(start.year, QuarterOf(start.month)), consumed.value.1),
              consumed.value.0, next.value))
  }

  /** Quarters already emitted in front of what is left to do. */
  function Prepend(done: seq<QuarterDrives>, rest: Result<seq<QuarterDrives>, PyError>)
    : Result<seq<QuarterDrives>, PyError>
  {
    if rest.Err? then rest else Ok(done + rest.value)
  }

  /** The outer `while`, from the quarter holding `start` on, while `start` is before the
      last date. */
  function Walk(daily: map<Date, map<string, int>>, dates: seq<Date>, start: Date, last: Date)
    : Result<seq<QuarterDrives>, PyError>
    requires Valid(start) && Valid(last)
    requires forall i :: 0 <= i < |dates| ==> dates[i] in daily
    decreases QuarterIndex(last) - QuarterIndex(start)
  {
    if !Before(start, last) then Ok([])
    else
      var t := Turn(daily, dates, start);
      if t.Err? then Err(t.error)
      else
        QuarterIndexMonotone(start, last);
        Prepend([t.value.0], Walk(daily, t.value.1, t.value.2, last))
  }

  /** `_aggregate_data`: from the quarter of the first date, while before the last date.
      An empty table raises IndexError at `sorted_dates[0]`. */
  function AggregateSpec(daily: map<Date, map<string, int>>): Result<seq<QuarterDrives>, PyError> {
    var dates := SortedDates(daily.Keys);
    if |dates| == 0 then Err(IndexError)
    else if !Valid(dates[0]) || !Valid(dates[|dates| - 1]) then Err(ValueError("Invalid isoformat string"))
    else Walk(daily, dates, dates[0], dates[|dates| - 1])
  }

  /** The walk stops once `start` is no longer before the last date. */
  lemma {:induction false} WalkDone(daily: map<Date, map<string, int>>, dates: seq<Date>, start: Date, last: Date,
                 done: seq<QuarterDrives>)
    requires Valid(start) && Valid(last) && !Before(start, last)
    requires forall i :: 0 <= i < |dates| ==> dates[i] in daily
    ensures Prepend(done, Walk(daily, dates, start, last)) == Ok(done)
  {
    assert done + [] == done;
  }

  /** Unfolding the walk at a date before the last one. */
  lemma {:induction false} WalkUnfold(daily: map<Date, map<string, int>>, dates: seq<Date>, start: Date, last: Date)
    requires Valid(start) && Valid(last) && Before(start, last)
    requires forall i :: 0 <= i < |dates| ==> dates[i] in daily
    ensures var t := Turn(daily, dates, start);
      t.Err? ==> Walk(daily, dates, start, last) == Err(t.error)
    ensures var t := Turn(daily, dates, start);
      t.Ok? ==> Walk(daily, dates, start, last) == Prepend([t.value.0], Walk(daily, t.value.1, t.value.2, last))
  {
  }

  /** Emitting one more quarter. */
  lemma {:induction false} PrependStep(done: seq<QuarterDrives>, q: QuarterDrives, rest: Result<seq<QuarterDrives>, PyError>)
    ensures Prepend(done, Prepend([q], rest)) == Prepend(done + [q], rest)
  {
    if rest.Ok? {
      assert done + ([q] + rest.value) == (done + [q]) + rest.value;
    }
  }

  /** The inner `while` of one quarter. */
  method ConsumeQuarter(daily: map<Date, map<string, int>>, dates: seq<Date>, start: Date, ending: Date)
    returns (r: Result<(seq<Date>, map<string, int>), PyError>)
    requires forall i :: 0 <= i < |dates| ==> dates[i] in daily
    ensures r == Consume(daily, dates, start, ending, map[])
  {
    var left := dates;
    var drives: map<string, int> := map[];
    var curr := start;
    while curr != ending
      invariant forall i :: 0 <= i < |left| ==> left[i] in daily
      invariant Consume(daily, dates, start, ending, map[]) == Consume(daily, left, curr, ending, drives)
      decreases |left|
    {
      if |left| == 0 {
        return Err(IndexError);
      }
      curr := left[0];
      left := left[1..];
      drives := MergeDay(drives, daily[curr]);
    }
    return Ok((left, drives));
  }

  /** The body of the outer `while`: the quarter's end and label, its dates, and the step to
      the next quarter. */
  method AggregateQuarter(daily: map<Date, map<string, int>>, dates: seq<Date>, start: Date)
    returns (r: Result<(QuarterDrives, seq<Date>, Date), PyError>)
    requires Valid(start)
    requires forall i :: 0 <= i < |dates| ==> dates[i] in daily
    ensures r == Turn(daily, dates, start)
  {
    if start.year < 1000 {
      return Err(ValueError("Invalid isoformat string"));
    }
    var ending := QuarterEnd(start);
    var quarter := QuarterLabel(start.year, QuarterOf(start.month));
    var consumed := ConsumeQuarter(daily, dates, start, ending);
    if consumed.Err? {
      return Err(consumed.error);
    }
    var next := NextDay(ending);
    if next.Err? {
      return Err(next.error);
    }
    return Ok((QuarterDrives(quarter, consumed.value.1), consumed.value.0, next.value));
  }

  /** The outer `while` of `_aggregate_data`, from the first date's quarter. */
  method WalkQuarters(daily: map<Date, map<string, int>>, dates: seq<Date>, first: Date, last: Date)
    returns (r: Result<seq<QuarterDrives>, PyError>)
    requires Valid(first) && Valid(last)
    requires forall i :: 0 <= i < |dates| ==> dates[i] in daily
    ensures r == Walk(daily, dates, first, last)
  {
    var sortedDates := dates;
    var start := first;
    var stats: seq<QuarterDrives> := [];
    assert Prepend(stats, Walk(daily, dates, first, last)) == Walk(daily, dates, first, last) by {
      var w := Walk(daily, dates, first, last);
      if w.Ok? { assert stats + w.value == w.value; }
    }
    while Before(start, last)
      invariant Valid(start)
      invariant forall i :: 0 <= i < |sortedDates| ==> sortedDates[i] in daily
      invariant Walk(daily, dates, first, last) == Prepend(stats, Walk(daily, sortedDates, start, last))
      decreases QuarterIndex(last) - QuarterIndex(start)
    {
      var turn := AggregateQuarter(daily, sortedDates, start);
      WalkUnfold(daily, sortedDates, start, last);
      if turn.Err? {
        return Err(turn.error);
      }
      QuarterIndexMonotone(start, last);
      PrependStep(stats, turn.value.0, Walk(daily, turn.value.1, turn.value.2, last));
      stats := stats + [turn.value.0];
      sortedDates := turn.value.1;
      start := turn.value.2;
    }
    WalkDone(daily, sortedDates, start, last, stats);
    return Ok(stats);
  }

  /** The sorted dates are keys of the table. */
  lemma {:induction false} SortedKeys(daily: map<Date, map<string, int>>)
    ensures forall i :: 0 <= i < |SortedDates(daily.Keys)| ==> SortedDates(daily.Keys)[i] in daily
  {
  }

  /** `_aggregate_data`: `sorted(daily_data)`, its first and last dates, then the quarters. */
  method AggregateData(daily: map<Date, map<string, int>>) returns (r: Result<seq<QuarterDrives>, PyError>)
    ensures r == AggregateSpec(daily)
  {
    var sortedDates := SortedDates(daily.Keys);
    SortedKeys(daily);
    if |sortedDates| == 0 {
      return Err(IndexError);
    }
    var first := sortedDates[0];
    var last := sortedDates[|sortedDates| - 1];
    if !Valid(first) || !Valid(last) {
      return Err(ValueError("Invalid isoformat string"));
    }
    r := WalkQuarters(daily, sortedDates, first, last);
  }

  // ---------------------------------------------------------------------------------------
  // What the aggregation computes

  /** Some day among `used` lists drive `m`. */
  predicate SeenIn(daily: map<Date, map<string, int>>, used: seq<Date>, m: string)
    requires forall i :: 0 <= i < |used| ==> used[i] in daily
  {
    exists j :: 0 <= j < |used| && m in daily[used[j]]
  }

  // A quarter's value for drive `m` is the MAX of its starting value (0 when absent) and
  // the counts of the days consumed for the quarter, `dates[..|dates| - |rest|]`: the three
  // lemmas below say that it lists exactly the drives listed before or on one of those
  // days, is at least each of those counts and the starting value, and is one of them.

  /** A day popped: the run goes on from the next date with that day folded in, and the
      days consumed are that day followed by those consumed from the rest. */
  lemma {:induction false} ConsumePop(daily: map<Date, map<string, int>>, dates: seq<Date>, curr: Date,
                   ending: Date, acc: map<string, int>)
    requires forall i :: 0 <= i < |dates| ==> dates[i] in daily
    requires curr != ending && Consume(daily, dates, curr, ending, acc).Ok?
    ensures |dates| > 0
    ensures Consume(daily, dates, curr, ending, acc)
      == Consume(daily, dates[1..], dates[0], ending, MaxInto(acc, daily[dates[0]]))
    ensures var rest := Consume(daily, dates, curr, ending, acc).value.0;
      dates[..|dates| - |rest|] == [dates[0]] + dates[1..][..|dates| - 1 - |rest|]
  {
  }

  /** The drives of the quarter are those it started with and those of the days consumed. */
  lemma {:induction false} ConsumeKeys(daily: map<Date, map<string, int>>, dates: seq<Date>,
                                       curr: Date, ending: Date, acc: map<string, int>, m: string)
    requires forall i :: 0 <= i < |dates| ==> dates[i] in daily
    requires Consume(daily, dates, curr, ending, acc).Ok?
    ensures var (rest, out) := Consume(daily, dates, curr, ending, acc).value;
      m in out <==> m in acc || SeenIn(daily, dates[..|dates| - |rest|], m)
    decreases |dates|
  {
    var (rest, out) := Consume(daily, dates, curr, ending, acc).value;
    var used := dates[..|dates| - |rest|];
    if curr == ending {
      assert used == [];
    } else {
      ConsumePop(daily, dates, curr, ending, acc);
      var d0 := dates[0];
      ConsumeKeys(daily, dates[1..], d0, ending, MaxInto(acc, daily[d0]), m);
      var used1 := dates[1..][..|dates| - 1 - |rest|];
      SeenInCons(daily, d0, used1, m);
    }
  }

  /** A drive is seen among `[d0] + used` iff it is listed on `d0` or seen among `used`. */
  lemma {:induction false} SeenInCons(daily: map<Date, map<string, int>>, d0: Date, used: seq<Date>, m: string)
    requires d0 in daily && forall i :: 0 <= i < |used| ==> used[i] in daily
    ensures SeenIn(daily, [d0] + used, m) <==> m in daily[d0] || SeenIn(daily, used, m)
  {
    var all := [d0] + used;
    if SeenIn(daily, used, m) {
      var j :| 0 <= j < |used| && m in daily[used[j]];
      assert all[j + 1] == used[j];
    }
    if SeenIn(daily, all, m) {
      var j :| 0 <= j < |all| && m in daily[all[j]];
      if j > 0 {
        assert all[j] == used[j - 1];
      }
    }
    if m in daily[d0] {
      assert all[0] == d0;
    }
  }

  /** No day among `used` lists drive `m` with a count above `v`. */
  predicate CountsBelow(daily: map<Date, map<string, int>>, used: seq<Date>, m: string, v: int)
    requires forall i :: 0 <= i < |used| ==> used[i] in daily
  {
    forall j :: 0 <= j < |used| && m in daily[used[j]] ==> daily[used[j]][m] <= v
  }

  /** A day whose count is at most `v`, in front of days whose counts are, keeps them so. */
  lemma {:induction false} CountsBelowCons(daily: map<Date, map<string, int>>, d0: Date, used: seq<Date>,
                                           m: string, v: int)
    requires d0 in daily && forall i :: 0 <= i < |used| ==> used[i] in daily
    requires CountsBelow(daily, used, m, v) && (m in daily[d0] ==> daily[d0][m] <= v)
    ensures CountsBelow(daily, [d0] + used, m, v)
  {
    var all := [d0] + used;
    forall j | 0 <= j < |all| && m in daily[all[j]] ensures daily[all[j]][m] <= v {
      if j > 0 {
        assert all[j] == used[j - 1];
      }
    }
  }

  /** The quarter's value is at least its starting value and each consumed day's count. */
  lemma {:induction false} ConsumeBounds(daily: map<Date, map<string, int>>, dates: seq<Date>,
                                         curr: Date, ending: Date, acc: map<string, int>, m: string)
    requires forall i :: 0 <= i < |dates| ==> dates[i] in daily
    requires Consume(daily, dates, curr, ending, acc).Ok?
    ensures var r := Consume(daily, dates, curr, ending, acc).value;
      m in r.1 ==> r.1[m] >= ValueOr0(acc, m) && CountsBelow(daily, dates[..|dates| - |r.0|], m, r.1[m])
    decreases |dates|
  {
    var r := Consume(daily, dates, curr, ending, acc).value;
    var rest, out := r.0, r.1;
    if curr == ending {
      assert dates[..|dates| - |rest|] == [];
    } else {
      ConsumePop(daily, dates, curr, ending, acc);
      var d0 := dates[0];
      var acc1 := MaxInto(acc, daily[d0]);
      ConsumeBounds(daily, dates[1..], d0, ending, acc1, m);
      if m in out {
        MaxIntoGrows(acc, daily[d0], m);
        CountsBelowCons(daily, d0, dates[1..][..|dates| - 1 - |rest|], m, out[m]);
      }
    }
  }

  /** The quarter's value is its starting value or one consumed day's count. */
  lemma {:induction false} ConsumeAttained(daily: map<Date, map<string, int>>, dates: seq<Date>,
                                           curr: Date, ending: Date, acc: map<string, int>, m: string)
    requires forall i :: 0 <= i < |dates| ==> dates[i] in daily
    requires Consume(daily, dates, curr, ending, acc).Ok?
    ensures var (rest, out) := Consume(daily, dates, curr, ending, acc).value;
      var used := dates[..|dates| - |rest|];
      m in out ==> out[m] == ValueOr0(acc, m)
                   || exists j :: 0 <= j < |used| && m in daily[used[j]] && out[m] == daily[used[j]][m]
    decreases |dates|
  {
    var (rest, out) := Consume(daily, dates, curr, ending, acc).value;
    var used := dates[..|dates| - |rest|];
    if curr == ending {
      assert used == [];
    } else {
      ConsumePop(daily, dates, curr, ending, acc);
      var d0 := dates[0];
      var acc1 := MaxInto(acc, daily[d0]);
      ConsumeAttained(daily, dates[1..], d0, ending, acc1, m);
      var used1 := dates[1..][..|dates| - 1 - |rest|];
      if m in out && out[m] != ValueOr0(acc1, m) {
        var j :| 0 <= j < |used1| && m in daily[used1[j]] && out[m] == daily[used1[j]][m];
        assert used[j + 1] == used1[j];
      } else if m in out && m in daily[d0] {
        assert used[0] == d0;
      }
    }
  }

  /** The number of quarters the walk emits: one per quarter from the first date's to the
      last date's, except that a last date on the first day of a quarter does not open it. */
  function QuarterCount(start: Date, last: Date): int
    requires Valid(start) && Valid(last)
  {
    if !Before(start, last) then 0
    else QuarterIndex(last) - QuarterIndex(start) + (if QuarterStart(last) then 0 else 1)
  }

  /** A quarter's first day comes no later than any date of that or a later quarter. */
  lemma {:induction false} QuarterStartLeast(q: Date, d: Date)
    requires QuarterStart(q) && Valid(d) && QuarterIndex(q) <= QuarterIndex(d)
    ensures BeforeEq(q, d)
  {
  }

  /** The step the walk's count rests on: from a date before `last`, the next quarter's
      first day adds one quarter to the count that remains. */
  lemma {:induction false} QuarterCountStep(start: Date, next: Date, last: Date)
    requires Valid(start) && Valid(last) && Before(start, last)
    requires QuarterStart(next) && QuarterIndex(next) == QuarterIndex(start) + 1
    ensures QuarterCount(start, last) == 1 + QuarterCount(next, last)
  {
    QuarterIndexMonotone(start, last);
    if !Before(next, last) {
      assert BeforeEq(last, next);
      QuarterIndexMonotone(last, next);
      if QuarterIndex(last) == QuarterIndex(next) {
        QuarterStartLeast(next, last);
      } else if QuarterStart(last) {
        QuarterStartLeast(last, start);
      }
    }
  }

  /** A completed walk emits `QuarterCount` quarters. */
  lemma {:induction false} WalkCount(daily: map<Date, map<string, int>>, dates: seq<Date>,
                                     start: Date, last: Date)
    requires Valid(start) && Valid(last)
    requires forall i :: 0 <= i < |dates| ==> dates[i] in daily
    requires Walk(daily, dates, start, last).Ok?
    ensures |Walk(daily, dates, start, last).value| == QuarterCount(start, last)
    decreases QuarterIndex(last) - QuarterIndex(start)
  {
    if Before(start, last) {
      var t := Turn(daily, dates, start).value;
      QuarterIndexMonotone(start, last);
      WalkCount(daily, t.1, t.2, last);
      QuarterCountStep(start, t.2, last);
    }
  }

  /** A completed walk labels its quarters with consecutive quarters from the first date's:
      "2023 Q4", "2024 Q1", ... */
  lemma {:induction false} WalkLabels(daily: map<Date, map<string, int>>, dates: seq<Date>,
                                      start: Date, last: Date)
    requires Valid(start) && Valid(last)
    requires forall i :: 0 <= i < |dates| ==> dates[i] in daily
    requires Walk(daily, dates, start, last).Ok?
    ensures var qs := Walk(daily, dates, start, last).value;
      forall k :: 0 <= k < |qs| ==> qs[k].quarter == NthLabel(start.year, QuarterOf(start.month), k)
    decreases QuarterIndex(last) - QuarterIndex(start)
  {
    if Before(start, last) {
      var t := Turn(daily, dates, start).value;
      var next := t.2;
      QuarterIndexMonotone(start, last);
      WalkLabels(daily, t.1, next, last);
      var qs := Walk(daily, dates, start, last).value;
      var rest := Walk(daily, t.1, next, last).value;
      assert qs == [t.0] + rest;
      forall k | 0 <= k < |qs| ensures qs[k].quarter == NthLabel(start.year, QuarterOf(start.month), k) {
        if k > 0 {
          assert qs[k] == rest[k - 1];
          NthLabelShift(start.year, QuarterOf(start.month), k);
        } else {
          assert NthQuarter(start.year, QuarterOf(start.month), 0) == (start.year, QuarterOf(start.month));
        }
      }
    }
  }

  /** A quarter's values are at least the 0 each drive starts at. */
  lemma {:induction false} TurnNonNegative(daily: map<Date, map<string, int>>, dates: seq<Date>, start: Date)
    requires Valid(start)
    requires forall i :: 0 <= i < |dates| ==> dates[i] in daily
    requires Turn(daily, dates, start).Ok?
    ensures var q := Turn(daily, dates, start).value.0;
      forall m :: m in q.drives ==> q.drives[m] >= 0
  {
    var q := Turn(daily, dates, start).value.0;
    forall m | m in q.drives ensures q.drives[m] >= 0 {
      ConsumeBounds(daily, dates, start, QuarterEnd(start), map[], m);
    }
  }

  /** Every value of every emitted quarter is at least 0, whatever the daily counts. */
  lemma {:induction false} WalkNonNegative(daily: map<Date, map<string, int>>, dates: seq<Date>,
                                           start: Date, last: Date)
    requires Valid(start) && Valid(last)
    requires forall i :: 0 <= i < |dates| ==> dates[i] in daily
    requires Walk(daily, dates, start, last).Ok?
    ensures var qs := Walk(daily, dates, start, last).value;
      forall k, m :: 0 <= k < |qs| && m in qs[k].drives ==> qs[k].drives[m] >= 0
    decreases QuarterIndex(last) - QuarterIndex(start)
  {
    if Before(start, last) {
      var t := Turn(daily, dates, start).value;
      QuarterIndexMonotone(start, last);
      WalkNonNegative(daily, t.1, t.2, last);
      var qs := Walk(daily, dates, start, last).value;
      var rest := Walk(daily, t.1, t.2, last).value;
      assert qs == [t.0] + rest;
      TurnNonNegative(daily, dates, start);
      assert forall k :: 0 < k < |qs| ==> qs[k] == rest[k - 1];
    }
  }

  /** The aggregated data, when there is any: `QuarterCount` consecutive quarters from the
      first date's, with no negative value. */
  lemma {:induction false} AggregateShape(daily: map<Date, map<string, int>>)
    requires AggregateSpec(daily).Ok?
    ensures var dates := SortedDates(daily.Keys);
      var qs := AggregateSpec(daily).value;
      |dates| > 0 && Valid(dates[0]) && Valid(dates[|dates| - 1])
      && |qs| == QuarterCount(dates[0], dates[|dates| - 1])
      && (forall k :: 0 <= k < |qs| ==> qs[k].quarter == NthLabel(dates[0].year, QuarterOf(dates[0].month), k))
      && (forall k, m :: 0 <= k < |qs| && m in qs[k].drives ==> qs[k].drives[m] >= 0)
  {
    var dates := SortedDates(daily.Keys);
    SortedKeys(daily);
    var first := dates[0];
    var last := dates[|dates| - 1];
    assert AggregateSpec(daily) == Walk(daily, dates, first, last);
    WalkCount(daily, dates, first, last);
    WalkLabels(daily, dates, first, last);
    WalkNonNegative(daily, dates, first, last);
  }

  // ---------------------------------------------------------------------------------------
  // What `_aggregate_data` does to a quarter whose first date is a quarter's last day, and
  // the grouping it evidently intends: every day counted in its own quarter.

  /** If the quarter's last day is not among the dates left, the inner loop runs the list
      dry and `sorted_dates.pop(0)` raises IndexError. */
  lemma {:induction false} ConsumeDry(daily: map<Date, map<string, int>>, dates: seq<Date>, curr: Date,
                                      ending: Date, acc: map<string, int>)
    requires forall i :: 0 <= i < |dates| ==> dates[i] in daily
    requires curr != ending && ending !in dates
    ensures Consume(daily, dates, curr, ending, acc) == Err(IndexError)
    decreases |dates|
  {
    if |dates| > 0 {
      assert dates[0] != ending;
      ConsumeDry(daily, dates[1..], dates[0], ending, MaxInto(acc, daily[dates[0]]));
    }
  }

  /** The sorted dates of a table are the ascending list of its dates. */
  lemma {:induction false} SortedIs(keys: set<Date>, s: seq<Date>)
    requires AscendingDates(s) && forall x :: x in s <==> x in keys
    ensures SortedDates(keys) == s
  {
    SortedDatesAscending(keys);
    AscendingDatesUnique(s, SortedDates(keys));
  }

  /** One drive model with a count per day. */
  function OneDrive(count: int): map<string, int> {
    map["ST4000DM000" := count]
  }

  /** Folding a one-drive day into an empty or one-drive quarter keeps the larger count. */
  lemma {:induction false} MaxIntoOne(acc: map<string, int>, a: int, b: int)
    requires acc == map[] || acc == OneDrive(a)
    ensures MaxInto(acc, OneDrive(b)) == OneDrive(if acc == map[] then Max(0, b) else Max(a, b))
  {
    var r := MaxInto(acc, OneDrive(b));
    assert r.Keys == {"ST4000DM000"};
  }

  /** Three days: the last day of 2023 Q1, then the first and the last day of 2023 Q2. */
  function QuarterEndSample(): map<Date, map<string, int>> {
    map[Date(2023, 3, 31) := OneDrive(9), Date(2023, 4, 1) := OneDrive(7), Date(2023, 6, 30) := OneDrive(6)]
  }

  lemma {:induction false} QuarterEndSampleSorted()
    ensures SortedDates(QuarterEndSample().Keys) == [Date(2023, 3, 31), Date(2023, 4, 1), Date(2023, 6, 30)]
  {
    var s := [Date(2023, 3, 31), Date(2023, 4, 1), Date(2023, 6, 30)];
    assert QuarterEndSample().Keys == {s[0], s[1], s[2]};
    SortedIs(QuarterEndSample().Keys, s);
  }

  /** As written, the first turn: 2023 Q1 starts on its last day, so its inner loop stops at
      once and pops nothing. */
  lemma {:induction false} QuarterEndSampleFirst(daily: map<Date, map<string, int>>, dates: seq<Date>)
    requires daily == QuarterEndSample() && dates == [Date(2023, 3, 31), Date(2023, 4, 1), Date(2023, 6, 30)]
    ensures Turn(daily, dates, dates[0]) == Ok((QuarterDrives(QuarterLabel(2023, 1), map[]), dates, dates[1]))
  {
    assert QuarterEnd(dates[0]) == dates[0];
    assert NextDay(dates[0]) == Ok(dates[1]);
  }

  /** One turn of the outer loop from its parts. */
  lemma {:induction false} TurnOf(daily: map<Date, map<string, int>>, dates: seq<Date>, start: Date,
                                  rest: seq<Date>, acc: map<string, int>, next: Date)
    requires Valid(start) && start.year >= 1000
    requires forall i :: 0 <= i < |dates| ==> dates[i] in daily
    requires Consume(daily, dates, start, QuarterEnd(start), map[]) == Ok((rest, acc))
    requires NextDay(QuarterEnd(start)) == Ok(next)
    ensures Turn(daily, dates, start) == Ok((QuarterDrives(QuarterLabel(start.year, QuarterOf(start.month)), acc), rest, next))
  {
  }

  /** One pop of the inner loop, folding the popped day into `acc` to give `next`. */
  lemma {:induction false} ConsumeStep(daily: map<Date, map<string, int>>, dates: seq<Date>, curr: Date,
                                       ending: Date, acc: map<string, int>, next: map<string, int>)
    requires forall i :: 0 <= i < |dates| ==> dates[i] in daily
    requires curr != ending && |dates| > 0 && next == MaxInto(acc, daily[dates[0]])
    ensures Consume(daily, dates, curr, ending, acc) == Consume(daily, dates[1..], dates[0], ending, next)
  {
  }

  /** As written, 2023 Q2's inner loop pops March 31, April 1 and June 30. */
  lemma {:induction false} QuarterEndSampleConsume(daily: map<Date, map<string, int>>, dates: seq<Date>)
    requires daily == QuarterEndSample() && dates == [Date(2023, 3, 31), Date(2023, 4, 1), Date(2023, 6, 30)]
    ensures Consume(daily, dates, dates[1], dates[2], map[]) == Ok(([], OneDrive(9)))
  {
    var a, b, c := dates[0], dates[1], dates[2];
    assert daily[a] == OneDrive(9) && daily[b] == OneDrive(7) && daily[c] == OneDrive(6);
    ConsumeNineSevenSix(daily, a, b, c);
  }

  /** Starting from the middle day, the inner loop pops a 9, a 7 and a 6 and stops at the
      third, keeping the 9. */
  lemma {:induction false} ConsumeNineSevenSix(daily: map<Date, map<string, int>>, a: Date, b: Date, c: Date)
    requires a in daily && b in daily && c in daily && a != c && b != c
    requires daily[a] == OneDrive(9) && daily[b] == OneDrive(7) && daily[c] == OneDrive(6)
    ensures Consume(daily, [a, b, c], b, c, map[]) == Ok(([], OneDrive(9)))
  {
    NineSevenSixFolds(daily, a, b, c);
    ConsumeKeepingNine(daily, [a, b, c], [b, c], [c], a, b, c, OneDrive(9));
  }

  /** Folding the 9, then the 7, then the 6 keeps the 9. */
  lemma {:induction false} NineSevenSixFolds(daily: map<Date, map<string, int>>, a: Date, b: Date, c: Date)
    requires a in daily && b in daily && c in daily
    requires daily[a] == OneDrive(9) && daily[b] == OneDrive(7) && daily[c] == OneDrive(6)
    ensures MaxInto(map[], daily[a]) == OneDrive(9)
    ensures MaxInto(OneDrive(9), daily[b]) == OneDrive(9) && MaxInto(OneDrive(9), daily[c]) == OneDrive(9)
  {
    var nine := OneDrive(9);
    MaxIntoOne(map[], 0, 9);
    MaxIntoOne(nine, 9, 7);
    MaxIntoOne(nine, 9, 6);
  }

  /** The three pops of the inner loop, given what each fold gives. */
  lemma {:induction false} ConsumeKeepingNine(daily: map<Date, map<string, int>>, s1: seq<Date>, s2: seq<Date>,
                                              s3: seq<Date>, a: Date, b: Date, c: Date, nine: map<string, int>)
    requires s1 == [a, b, c] && s2 == [b, c] && s3 == [c]
    requires a in daily && b in daily && c in daily && a != c && b != c
    requires MaxInto(map[], daily[a]) == nine
    requires MaxInto(nine, daily[b]) == nine && MaxInto(nine, daily[c]) == nine
    ensures Consume(daily, s1, b, c, map[]) == Ok(([], nine))
  {
    assert s1[0] == a && s1[1..] == s2 && s2[0] == b && s2[1..] == s3 && s3[0] == c && s3[1..] == [];
    ConsumeStep(daily, s1, b, c, map[], nine);
    ConsumeStep(daily, s2, a, c, nine, nine);
    ConsumeStep(daily, s3, b, c, nine, nine);
  }

  /** As written, the second turn: 2023 Q2 takes March 31 with it. */
  lemma {:induction false} QuarterEndSampleSecond(daily: map<Date, map<string, int>>, dates: seq<Date>)
    requires daily == QuarterEndSample() && dates == [Date(2023, 3, 31), Date(2023, 4, 1), Date(2023, 6, 30)]
    ensures Turn(daily, dates, dates[1]) == Ok((QuarterDrives(QuarterLabel(2023, 2), OneDrive(9)), [], Date(2023, 7, 1)))
  {
    assert QuarterEnd(dates[1]) == dates[2];
    QuarterEndSampleConsume(daily, dates);
    assert NextDay(dates[2]) == Ok(Date(2023, 7, 1));
    TurnOf(daily, dates, dates[1], [], OneDrive(9), Date(2023, 7, 1));
  }

  /** `_aggregate_data` on a table, from its sorted dates. */
  lemma {:induction false} AggregateOf(daily: map<Date, map<string, int>>, dates: seq<Date>)
    requires dates == SortedDates(daily.Keys) && |dates| > 0 && Valid(dates[0]) && Valid(dates[|dates| - 1])
    ensures forall i :: 0 <= i < |dates| ==> dates[i] in daily
    ensures AggregateSpec(daily) == Walk(daily, dates, dates[0], dates[|dates| - 1])
  {
    SortedKeys(daily);
  }

  /** As written, the walk over the first sample. */
  lemma {:induction false} QuarterEndSampleWalk(daily: map<Date, map<string, int>>, dates: seq<Date>)
    requires daily == QuarterEndSample() && dates == [Date(2023, 3, 31), Date(2023, 4, 1), Date(2023, 6, 30)]
    ensures Walk(daily, dates, dates[0], dates[2])
      == Ok([QuarterDrives(QuarterLabel(2023, 1), map[]), QuarterDrives(QuarterLabel(2023, 2), OneDrive(9))])
  {
    var q1 := QuarterDrives(QuarterLabel(2023, 1), map[]);
    var q2 := QuarterDrives(QuarterLabel(2023, 2), OneDrive(9));
    QuarterEndSampleFirst(daily, dates);
    QuarterEndSampleSecond(daily, dates);
    WalkDone(daily, [], Date(2023, 7, 1), dates[2], [q2]);
    WalkUnfold(daily, dates, dates[1], dates[2]);
    WalkUnfold(daily, dates, dates[0], dates[2]);
    assert [q1] + [q2] == [q1, q2];
  }

  /** As written, 2023 Q1 comes out empty and the March 31 count of 9 is reported as the
      2023 Q2 maximum, above the 7 and 6 of its own days. */
  lemma {:induction false} QuarterEndFirstDay()
    ensures AggregateSpec(QuarterEndSample())
      == Ok([QuarterDrives(QuarterLabel(2023, 1), map[]), QuarterDrives(QuarterLabel(2023, 2), OneDrive(9))])
  {
    var dates := [Date(2023, 3, 31), Date(2023, 4, 1), Date(2023, 6, 30)];
    QuarterEndSampleSorted();
    AggregateOf(QuarterEndSample(), dates);
    QuarterEndSampleWalk(QuarterEndSample(), dates);
  }

  /** Two days of 2023 Q1, neither of them March 31. */
  function MissingEndSample(): map<Date, map<string, int>> {
    map[Date(2023, 1, 1) := OneDrive(1), Date(2023, 2, 1) := OneDrive(2)]
  }

  lemma {:induction false} MissingEndSampleSorted()
    ensures SortedDates(MissingEndSample().Keys) == [Date(2023, 1, 1), Date(2023, 2, 1)]
  {
    var s := [Date(2023, 1, 1), Date(2023, 2, 1)];
    assert MissingEndSample().Keys == {s[0], s[1]};
    SortedIs(MissingEndSample().Keys, s);
  }

  /** As written, a table without the last day of its first quarter runs the inner loop dry:
      `sorted_dates.pop(0)` raises IndexError. */
  lemma {:induction false} MissingQuarterEnd()
    ensures AggregateSpec(MissingEndSample()) == Err(IndexError)
  {
    var daily := MissingEndSample();
    var dates := [Date(2023, 1, 1), Date(2023, 2, 1)];
    MissingEndSampleSorted();
    AggregateOf(daily, dates);
    MissingEndSampleWalk(daily, dates);
  }

  /** As written, the walk over the second sample. */
  lemma {:induction false} MissingEndSampleWalk(daily: map<Date, map<string, int>>, dates: seq<Date>)
    requires daily == MissingEndSample() && dates == [Date(2023, 1, 1), Date(2023, 2, 1)]
    ensures Walk(daily, dates, dates[0], dates[1]) == Err(IndexError)
  {
    assert QuarterEnd(dates[0]) == Date(2023, 3, 31);
    ConsumeDry(daily, dates, dates[0], Date(2023, 3, 31), map[]);
    WalkUnfold(daily, dates, dates[0], dates[1]);
  }

  /** The dates of `dates` in the quarter with index `q`, in their order. */
  function DaysOfQuarter(dates: seq<Date>, q: int): (r: seq<Date>)
    requires forall d :: d in dates ==> Valid(d)
    ensures forall d :: d in r <==> d in dates && QuarterIndex(d) == q
    decreases |dates|
  {
    if |dates| == 0 then []
    else
      var init := dates[..|dates| - 1];
      var d := dates[|dates| - 1];
      assert forall x :: x in dates <==> x in init || x == d;
      var rest := DaysOfQuarter(init, q);
      if QuarterIndex(d) == q then rest + [d] else rest
  }

  /** The script's MAX fold over `days`, from an empty quarter. */
  function MaxOver(daily: map<Date, map<string, int>>, days: seq<Date>): map<string, int>
    requires forall d :: d in days ==> d in daily
    decreases |days|
  {
    if |days| == 0 then map[]
    else MaxInto(MaxOver(daily, days[..|days| - 1]), daily[days[|days| - 1]])
  }

  /** A drive is in the fold exactly when one of the days lists it. */
  lemma {:induction false} MaxOverKeys(daily: map<Date, map<string, int>>, days: seq<Date>, m: string)
    requires forall d :: d in days ==> d in daily
    ensures m in MaxOver(daily, days) <==> exists d :: d in days && m in daily[d]
    decreases |days|
  {
    if |days| > 0 {
      var init := days[..|days| - 1];
      var last := days[|days| - 1];
      assert forall x :: x in days <==> x in init || x == last;
      MaxOverKeys(daily, init, m);
    }
  }

  /** Its value is at least 0 and at least the count of each day that lists the drive. */
  lemma {:induction false} MaxOverBounds(daily: map<Date, map<string, int>>, days: seq<Date>, m: string)
    requires forall d :: d in days ==> d in daily
    requires m in MaxOver(daily, days)
    ensures MaxOver(daily, days)[m] >= 0
    ensures forall d :: d in days && m in daily[d] ==> daily[d][m] <= MaxOver(daily, days)[m]
    decreases |days|
  {
    var init := days[..|days| - 1];
    var last := days[|days| - 1];
    var acc := MaxOver(daily, init);
    assert forall x :: x in days <==> x in init || x == last;
    MaxOverKeys(daily, init, m);
    if m in acc {
      MaxOverBounds(daily, init, m);
      MaxIntoGrows(acc, daily[last], m);
    }
  }

  /** Its value is 0 or the count of one of those days. */
  lemma {:induction false} MaxOverAttained(daily: map<Date, map<string, int>>, days: seq<Date>, m: string)
    requires forall d :: d in days ==> d in daily
    requires m in MaxOver(daily, days)
    ensures MaxOver(daily, days)[m] == 0
      || exists d :: d in days && m in daily[d] && MaxOver(daily, days)[m] == daily[d][m]
    decreases |days|
  {
    var init := days[..|days| - 1];
    assert forall x :: x in init ==> x in days;
    if m in MaxOver(daily, init) {
      MaxOverAttained(daily, init, m);
    }
  }

  /** The label of the quarter with index `q`. */
  function IndexLabel(q: nat): string {
    QuarterLabel(q / 4, q % 4 + 1)
  }

  /** A date's quarter index gives back its quarter's label. */
  lemma {:induction false} IndexLabelOf(d: Date)
    requires Valid(d)
    ensures IndexLabel(QuarterIndex(d)) == QuarterLabel(d.year, QuarterOf(d.month))
  {
    var q := QuarterOf(d.month);
    assert QuarterIndex(d) == 4 * d.year + (q - 1);
    assert QuarterIndex(d) / 4 == d.year && QuarterIndex(d) % 4 == q - 1;
  }

  /** Every date of a table is valid. */
  predicate AllValid(daily: map<Date, map<string, int>>) {
    forall d :: d in daily ==> Valid(d)
  }

  /** The quarters from index `q0` to `q1`, each with the fold over its own days. */
  function QuartersFrom(daily: map<Date, map<string, int>>, dates: seq<Date>, q0: nat, q1: int)
    : (r: seq<QuarterDrives>)
    requires forall d :: d in dates ==> d in daily && Valid(d)
    ensures |r| == if q1 >= q0 then q1 - q0 + 1 else 0
    ensures forall k :: 0 <= k < |r| ==>
      r[k] == QuarterDrives(IndexLabel(q0 + k), MaxOver(daily, DaysOfQuarter(dates, q0 + k)))
  {
    seq(if q1 >= q0 then q1 - q0 + 1 else 0,
        k requires 0 <= k => QuarterDrives(IndexLabel(q0 + k), MaxOver(daily, DaysOfQuarter(dates, q0 + k))))
  }

  /** The evidently intended `_aggregate_data`: every quarter from the first date's to the
      last date's, in order, each labelled and holding, per drive, the largest count of the
      days of that quarter and only those. An empty table still raises IndexError. */
  function AggregateIntended(daily: map<Date, map<string, int>>): Result<seq<QuarterDrives>, PyError> {
    var dates := SortedDates(daily.Keys);
    if |dates| == 0 then Err(IndexError)
    else if !AllValid(daily) then Err(ValueError("Invalid isoformat string"))
    else Ok(QuartersFrom(daily, dates, QuarterIndex(dates[0]), QuarterIndex(dates[|dates| - 1])))
  }

  /** The first sorted date is in the earliest quarter and the last in the latest. */
  lemma {:induction false} SortedQuarterBounds(daily: map<Date, map<string, int>>, d: Date)
    requires AllValid(daily) && d in daily
    ensures var dates := SortedDates(daily.Keys);
      |dates| > 0 && QuarterIndex(dates[0]) <= QuarterIndex(d) <= QuarterIndex(dates[|dates| - 1])
  {
    var dates := SortedDates(daily.Keys);
    SortedDatesAscending(daily.Keys);
    assert d in dates;
    AscendingQuarterBounds(dates, d);
  }

  /** In an ascending sequence of valid dates, the first is in the earliest quarter and the
      last in the latest. */
  lemma {:induction false} AscendingQuarterBounds(dates: seq<Date>, d: Date)
    requires AscendingDates(dates) && d in dates
    requires forall x :: x in dates ==> Valid(x)
    ensures QuarterIndex(dates[0]) <= QuarterIndex(d) <= QuarterIndex(dates[|dates| - 1])
  {
    var i :| 0 <= i < |dates| && dates[i] == d;
    assert BeforeEq(dates[0], d) && BeforeEq(d, dates[|dates| - 1]);
    QuarterIndexMonotone(dates[0], d);
    QuarterIndexMonotone(d, dates[|dates| - 1]);
  }

  /** `v` is the largest count of drive `m` on the days of quarter index `q`, or 0 if they
      are all negative. */
  predicate MaxOfQuarter(daily: map<Date, map<string, int>>, q: int, m: string, v: int) {
    v >= 0
    && (forall d :: d in daily && Valid(d) && QuarterIndex(d) == q && m in daily[d] ==> daily[d][m] <= v)
    && (v == 0 || exists d :: d in daily && Valid(d) && QuarterIndex(d) == q && m in daily[d] && v == daily[d][m])
  }

  /** Some day of quarter index `q` lists drive `m`. */
  predicate ListedIn(daily: map<Date, map<string, int>>, q: int, m: string) {
    exists d :: d in daily && Valid(d) && QuarterIndex(d) == q && m in daily[d]
  }

  /** A non-empty table of valid dates aggregates to the quarters from its first date's to
      its last date's. */
  lemma {:induction false} IntendedIs(daily: map<Date, map<string, int>>)
    requires AllValid(daily) && daily != map[]
    ensures var dates := SortedDates(daily.Keys);
      |dates| > 0 && (forall d :: d in dates <==> d in daily)
      && AggregateIntended(daily) == Ok(QuartersFrom(daily, dates, QuarterIndex(dates[0]), QuarterIndex(dates[|dates| - 1])))
  {
    var d :| d in daily;
    assert d in SortedDates(daily.Keys);
  }

  /** A result comes only from a non-empty table of valid dates. */
  lemma {:induction false} IntendedOk(daily: map<Date, map<string, int>>)
    requires AggregateIntended(daily).Ok?
    ensures AllValid(daily) && daily != map[]
  {
  }

  /** A day of quarter index `q0 <= QuarterIndex(d) <= q1` is counted in its own quarter. */
  lemma {:induction false} QuartersFromOwn(daily: map<Date, map<string, int>>, dates: seq<Date>, q0: nat, q1: int,
                                           d: Date, m: string)
    requires forall x :: x in dates ==> x in daily && Valid(x)
    requires d in dates && m in daily[d] && q0 <= QuarterIndex(d) <= q1
    ensures var qs := QuartersFrom(daily, dates, q0, q1); var k := QuarterIndex(d) - q0;
      0 <= k < |qs| && qs[k].quarter == QuarterLabel(d.year, QuarterOf(d.month))
      && m in qs[k].drives && daily[d][m] <= qs[k].drives[m]
  {
    var k := QuarterIndex(d) - q0;
    var days := DaysOfQuarter(dates, q0 + k);
    IndexLabelOf(d);
    assert d in days;
    MaxOverKeys(daily, days, m);
    MaxOverBounds(daily, days, m);
  }

  /** Quarter `k` lists exactly the drives of the days of quarter index `q0 + k`, each with
      the largest of their counts. */
  lemma {:induction false} QuartersFromExact(daily: map<Date, map<string, int>>, dates: seq<Date>, q0: nat, q1: int,
                                             k: int, m: string)
    requires AllValid(daily) && forall x :: x in dates <==> x in daily
    requires 0 <= k < |QuartersFrom(daily, dates, q0, q1)|
    ensures var drives := QuartersFrom(daily, dates, q0, q1)[k].drives;
      (m in drives <==> ListedIn(daily, q0 + k, m)) && (m in drives ==> MaxOfQuarter(daily, q0 + k, m, drives[m]))
  {
    var days := DaysOfQuarter(dates, q0 + k);
    MaxOverKeys(daily, days, m);
    if m in MaxOver(daily, days) {
      MaxOverBounds(daily, days, m);
      MaxOverAttained(daily, days, m);
    }
  }

  /** Intended: a non-empty table of valid dates aggregates, and each day is counted in its
      own quarter, at position `QuarterIndex(d) - q0` for `q0` the first date's quarter
      index, which carries the day's label and, for each drive the day lists, at least the
      day's count. */
  lemma {:induction false} IntendedOwnQuarter(daily: map<Date, map<string, int>>, d: Date, m: string, q0: int)
    requires AllValid(daily) && d in daily && m in daily[d]
    requires q0 == QuarterIndex(SortedDates(daily.Keys)[0])
    ensures AggregateIntended(daily).Ok?
    ensures var qs := AggregateIntended(daily).value; var k := QuarterIndex(d) - q0;
      0 <= k < |qs| && qs[k].quarter == QuarterLabel(d.year, QuarterOf(d.month))
      && m in qs[k].drives && daily[d][m] <= qs[k].drives[m]
  {
    var dates := SortedDates(daily.Keys);
    IntendedIs(daily);
    SortedQuarterBounds(daily, d);
    var q1 := QuarterIndex(dates[|dates| - 1]);
    QuartersFromOwn(daily, dates, q0, q1, d, m);
    assert AggregateIntended(daily).value == QuartersFrom(daily, dates, q0, q1);
  }

  /** Intended: the quarter at position `k`, of quarter index `q`, lists exactly the drives
      listed on a day of that quarter, each with the largest of those days' counts. */
  lemma {:induction false} IntendedQuarterExact(daily: map<Date, map<string, int>>, k: int, q: int, m: string)
    requires AggregateIntended(daily).Ok? && 0 <= k < |AggregateIntended(daily).value|
    requires q == QuarterIndex(SortedDates(daily.Keys)[0]) + k
    ensures var drives := AggregateIntended(daily).value[k].drives;
      (m in drives <==> ListedIn(daily, q, m)) && (m in drives ==> MaxOfQuarter(daily, q, m, drives[m]))
  {
    IntendedOk(daily);
    IntendedIs(daily);
    var dates := SortedDates(daily.Keys);
    var q0 := QuarterIndex(dates[0]);
    var q1 := QuarterIndex(dates[|dates| - 1]);
    QuartersFromExact(daily, dates, q0, q1, k, m);
    assert AggregateIntended(daily).value == QuartersFrom(daily, dates, q0, q1);
  }

  /** Two quarters from index `q0`. */
  lemma {:induction false} QuartersFromTwo(daily: map<Date, map<string, int>>, dates: seq<Date>, q0: nat,
                                           a0: map<string, int>, a1: map<string, int>)
    requires forall d :: d in dates ==> d in daily && Valid(d)
    requires MaxOver(daily, DaysOfQuarter(dates, q0)) == a0 && MaxOver(daily, DaysOfQuarter(dates, q0 + 1)) == a1
    ensures QuartersFrom(daily, dates, q0, q0 + 1) == [QuarterDrives(IndexLabel(q0), a0), QuarterDrives(IndexLabel(q0 + 1), a1)]
  {
  }

  /** One quarter, index `q0`. */
  lemma {:induction false} QuartersFromOne(daily: map<Date, map<string, int>>, dates: seq<Date>, q0: nat,
                                           a0: map<string, int>)
    requires forall d :: d in dates ==> d in daily && Valid(d)
    requires MaxOver(daily, DaysOfQuarter(dates, q0)) == a0
    ensures QuartersFrom(daily, dates, q0, q0) == [QuarterDrives(IndexLabel(q0), a0)]
  {
  }

  /** Intended, on the first sample: 9 in 2023 Q1 and 7 in 2023 Q2. */
  lemma {:induction false} QuarterEndFirstDayIntended()
    ensures AggregateIntended(QuarterEndSample())
      == Ok([QuarterDrives(QuarterLabel(2023, 1), OneDrive(9)), QuarterDrives(QuarterLabel(2023, 2), OneDrive(7))])
  {
    var daily := QuarterEndSample();
    var dates := [Date(2023, 3, 31), Date(2023, 4, 1), Date(2023, 6, 30)];
    QuarterEndSampleSorted();
    QuarterEndSampleValid(daily, dates);
    QuarterEndSampleGroups(daily, dates);
    IntendedTwo(daily, dates, 8092, OneDrive(9), OneDrive(7));
    Labels2023();
  }

  /** A table whose dates span two quarters, from index `q0`. */
  lemma {:induction false} IntendedTwo(daily: map<Date, map<string, int>>, dates: seq<Date>, q0: nat,
                                       a0: map<string, int>, a1: map<string, int>)
    requires AllValid(daily) && daily != map[] && dates == SortedDates(daily.Keys) && |dates| > 0
    requires QuarterIndex(dates[0]) == q0 && QuarterIndex(dates[|dates| - 1]) == q0 + 1
    requires MaxOver(daily, DaysOfQuarter(dates, q0)) == a0 && MaxOver(daily, DaysOfQuarter(dates, q0 + 1)) == a1
    ensures AggregateIntended(daily) == Ok([QuarterDrives(IndexLabel(q0), a0), QuarterDrives(IndexLabel(q0 + 1), a1)])
  {
    IntendedIs(daily);
    QuartersFromTwo(daily, dates, q0, a0, a1);
  }

  /** A table whose dates lie in one quarter, of index `q0`. */
  lemma {:induction false} IntendedOne(daily: map<Date, map<string, int>>, dates: seq<Date>, q0: nat,
                                       a0: map<string, int>)
    requires AllValid(daily) && daily != map[] && dates == SortedDates(daily.Keys) && |dates| > 0
    requires QuarterIndex(dates[0]) == q0 && QuarterIndex(dates[|dates| - 1]) == q0
    requires MaxOver(daily, DaysOfQuarter(dates, q0)) == a0
    ensures AggregateIntended(daily) == Ok([QuarterDrives(IndexLabel(q0), a0)])
  {
    IntendedIs(daily);
    QuartersFromOne(daily, dates, q0, a0);
  }

  lemma {:induction false} QuarterEndSampleValid(daily: map<Date, map<string, int>>, dates: seq<Date>)
    requires daily == QuarterEndSample() && dates == [Date(2023, 3, 31), Date(2023, 4, 1), Date(2023, 6, 30)]
    ensures AllValid(daily) && daily != map[]
  {
    assert daily.Keys == {dates[0], dates[1], dates[2]};
  }

  /** The labels of quarter indexes 8092 and 8093. */
  lemma {:induction false} Labels2023()
    ensures IndexLabel(8092) == QuarterLabel(2023, 1) && IndexLabel(8093) == QuarterLabel(2023, 2)
  {
    assert 8092 / 4 == 2023 && 8092 % 4 == 0 && 8093 / 4 == 2023 && 8093 % 4 == 1;
  }

  /** Intended, on the second sample: one quarter, 2023 Q1, with the larger count 2. */
  lemma {:induction false} MissingQuarterEndIntended()
    ensures AggregateIntended(MissingEndSample()) == Ok([QuarterDrives(QuarterLabel(2023, 1), OneDrive(2))])
  {
    var daily := MissingEndSample();
    var dates := [Date(2023, 1, 1), Date(2023, 2, 1)];
    MissingEndSampleSorted();
    MissingEndSampleValid(daily, dates);
    MissingEndSampleGroups(daily, dates);
    IntendedOne(daily, dates, 8092, OneDrive(2));
    Labels2023();
  }

  /** The first sample's days grouped by quarter, and their maxima. */
  lemma {:induction false} QuarterEndSampleGroups(daily: map<Date, map<string, int>>, dates: seq<Date>)
    requires daily == QuarterEndSample() && dates == [Date(2023, 3, 31), Date(2023, 4, 1), Date(2023, 6, 30)]
    ensures QuarterIndex(dates[0]) == 8092 && QuarterIndex(dates[2]) == 8093
    ensures MaxOver(daily, DaysOfQuarter(dates, 8092)) == OneDrive(9)
    ensures MaxOver(daily, DaysOfQuarter(dates, 8093)) == OneDrive(7)
  {
    var a, b, c := dates[0], dates[1], dates[2];
    assert QuarterIndex(a) == 8092 && QuarterIndex(b) == 8093 && QuarterIndex(c) == 8093;
    assert dates[..2] == [a, b] && [a, b][..1] == [a] && [a][..0] == [];
    assert DaysOfQuarter([a], 8092) == [a] && DaysOfQuarter([a], 8093) == [];
    assert DaysOfQuarter([a, b], 8092) == [a] && DaysOfQuarter([a, b], 8093) == [b];
    assert DaysOfQuarter(dates, 8092) == [a];
    assert DaysOfQuarter(dates, 8093) == [b, c];
    assert [b, c][..1] == [b] && [b][..0] == [];
    MaxIntoOne(map[], 0, 9);
    MaxIntoOne(map[], 0, 7);
    MaxIntoOne(OneDrive(7), 7, 6);
    assert MaxOver(daily, [a]) == OneDrive(9);
    assert MaxOver(daily, [b]) == OneDrive(7);
    assert MaxOver(daily, [b, c]) == OneDrive(7);
  }

  lemma {:induction false} MissingEndSampleValid(daily: map<Date, map<string, int>>, dates: seq<Date>)
    requires daily == MissingEndSample() && dates == [Date(2023, 1, 1), Date(2023, 2, 1)]
    ensures AllValid(daily) && daily != map[]
  {
    assert daily.Keys == {dates[0], dates[1]};
  }

  /** The second sample's days, both in 2023 Q1, and their maximum. */
  lemma {:induction false} MissingEndSampleGroups(daily: map<Date, map<string, int>>, dates: seq<Date>)
    requires daily == MissingEndSample() && dates == [Date(2023, 1, 1), Date(2023, 2, 1)]
    ensures QuarterIndex(dates[0]) == 8092 && QuarterIndex(dates[1]) == 8092
    ensures MaxOver(daily, DaysOfQuarter(dates, 8092)) == OneDrive(2)
  {
    var a, b := dates[0], dates[1];
    assert QuarterIndex(a) == 8092 && QuarterIndex(b) == 8092;
    assert dates[..1] == [a] && [a][..0] == [];
    assert DaysOfQuarter([a], 8092) == [a];
    assert DaysOfQuarter(dates, 8092) == dates;
    MissingEndSampleMax(daily, dates);
  }

  /** The larger of the second sample's two counts. */
  lemma {:induction false} MissingEndSampleMax(daily: map<Date, map<string, int>>, dates: seq<Date>)
    requires daily == MissingEndSample() && dates == [Date(2023, 1, 1), Date(2023, 2, 1)]
    ensures MaxOver(daily, dates) == OneDrive(2)
  {
    var a, b := dates[0], dates[1];
    assert dates[..1] == [a] && [a][..0] == [];
    MaxIntoOne(map[], 0, 1);
    MaxIntoOne(OneDrive(1), 1, 2);
    assert MaxOver(daily, [a]) == OneDrive(1);
  }

  // ---------------------------------------------------------------------------------------
  // `_apply_min_drive_filter`

  /** A quarter's drives after the first loop: each count `c` becomes
      `max(max_drives_by_drive[d], c)`, and `max_drives_by_drive[d]` is always 0. */
  function Clamped(drives: map<string, int>): map<string, int> {
    map d | d in drives :: Max(0, drives[d])
  }

  /** A quarter's drives after the second loop: those whose count is at least `minDrives`. */
  function AtLeast(drives: map<string, int>, minDrives: int): map<string, int> {
    map d | d in drives && drives[d] >= minDrives :: drives[d]
  }

  /** `r` is `drives` with the counts of the drives in `seen` clamped. */
  predicate ClampedSoFar(drives: map<string, int>, seen: set<string>, r: map<string, int>) {
    seen <= drives.Keys && r.Keys == drives.Keys
    && forall d :: d in r ==> r[d] == if d in seen then Max(0, drives[d]) else drives[d]
  }

  /** Every recorded maximum is 0: the loop only ever stores the 0 it creates. */
  predicate AllZero(maxByDrive: map<string, int>) {
    forall d :: d in maxByDrive ==> maxByDrive[d] == 0
  }

  /** Clamping one more drive. */
  lemma {:induction false} ClampOne(drives: map<string, int>, seen: set<string>, r: map<string, int>, d: string, top: int)
    requires ClampedSoFar(drives, seen, r) && d in drives && top == 0
    ensures ClampedSoFar(drives, seen + {d}, r[d := Max(top, r[d])])
  {
  }

  /** Once every drive is clamped, the quarter is `Clamped(drives)`. */
  lemma {:induction false} ClampAll(drives: map<string, int>, r: map<string, int>)
    requires ClampedSoFar(drives, drives.Keys, r)
    ensures r == Clamped(drives)
  {
    assert r.Keys == Clamped(drives).Keys;
  }

  /** Clamping at 0 changes no count that is already at least 0. */
  lemma {:induction false} ClampedIdentity(drives: map<string, int>)
    requires forall d :: d in drives ==> drives[d] >= 0
    ensures Clamped(drives) == drives
  {
    assert Clamped(drives).Keys == drives.Keys;
  }

  /** The inner loop of the first pass, over one quarter's drives, written back in place. */
  method ClampQuarter(drives: map<string, int>, maxByDrive: map<string, int>)
    returns (r: map<string, int>, maxAfter: map<string, int>)
    requires AllZero(maxByDrive)
    ensures r == Clamped(drives)
    ensures AllZero(maxAfter) && maxAfter.Keys == maxByDrive.Keys + drives.Keys
  {
    var models := Enumerate(drives.Keys);
    r := drives;
    maxAfter := maxByDrive;
    ghost var seen: set<string> := {};
    for i := 0 to |models|
      invariant ClampedSoFar(drives, seen, r)
      invariant forall j :: 0 <= j < i ==> models[j] in seen
      invariant AllZero(maxAfter) && maxAfter.Keys == maxByDrive.Keys + seen
    {
      var d := models[i];
      if d !in maxAfter {
        maxAfter := maxAfter[d := 0];
      }
      ClampOne(drives, seen, r, d, maxAfter[d]);
      r := r[d := Max(maxAfter[d], r[d])];
      seen := seen + {d};
    }
    assert seen == drives.Keys;
    ClampAll(drives, r);
  }

  /** The inner loop of the second pass: copy the drives with at least `minDrives`. */
  method KeepAtLeast(drives: map<string, int>, minDrives: int) returns (kept: map<string, int>)
    ensures kept == AtLeast(drives, minDrives)
  {
    var models := Enumerate(drives.Keys);
    kept := map[];
    for i := 0 to |models|
      invariant forall d :: d in kept <==> d in models[..i] && drives[d] >= minDrives
      invariant forall d :: d in kept ==> kept[d] == drives[d]
    {
      var d := models[i];
      if drives[d] >= minDrives {
        kept := kept[d := drives[d]];
      }
    }
    assert models[..|models|] == models;
    assert kept.Keys == AtLeast(drives, minDrives).Keys;
  }

  /** `_apply_min_drive_filter`: the same quarters with the same labels, each keeping the
      drives whose clamped count is at least `minDrives`. */
  method ApplyMinDriveFilter(quarters: seq<QuarterDrives>, minDrives: int)
    returns (filtered: seq<QuarterDrives>)
    ensures |filtered| == |quarters|
    ensures forall i :: 0 <= i < |quarters| ==>
      filtered[i] == QuarterDrives(quarters[i].quarter, AtLeast(Clamped(quarters[i].drives), minDrives))
  {
    var maxByDrive: map<string, int> := map[];
    var clamped: seq<QuarterDrives> := [];
    for i := 0 to |quarters|
      invariant AllZero(maxByDrive)
      invariant |clamped| == i
      invariant forall j :: 0 <= j < i ==> clamped[j] == QuarterDrives(quarters[j].quarter, Clamped(quarters[j].drives))
    {
      var drives, maxAfter := ClampQuarter(quarters[i].drives, maxByDrive);
      maxByDrive := maxAfter;
      clamped := clamped + [QuarterDrives(quarters[i].quarter, drives)];
    }
    filtered := [];
    for i := 0 to |clamped|
      invariant |filtered| == i
      invariant forall j :: 0 <= j < i ==>
        filtered[j] == QuarterDrives(clamped[j].quarter, AtLeast(clamped[j].drives, minDrives))
    {
      var kept := KeepAtLeast(clamped[i].drives, minDrives);
      filtered := filtered + [QuarterDrives(clamped[i].quarter, kept)];
    }
  }

  /** On aggregated data the clamping changes no count, so each quarter keeps exactly the
      drives whose own count is at least `minDrives`, with that count. */
  lemma {:induction false} FilterAggregated(daily: map<Date, map<string, int>>, minDrives: int)
    requires AggregateSpec(daily).Ok?
    ensures var qs := AggregateSpec(daily).value;
      forall k :: 0 <= k < |qs| ==> AtLeast(Clamped(qs[k].drives), minDrives) == AtLeast(qs[k].drives, minDrives)
  {
    var qs := AggregateSpec(daily).value;
    AggregateShape(daily);
    forall k | 0 <= k < |qs| ensures AtLeast(Clamped(qs[k].drives), minDrives) == AtLeast(qs[k].drives, minDrives) {
      ClampedIdentity(qs[k].drives);
    }
  }

  // ---------------------------------------------------------------------------------------
  // `_get_sorted_drive_models`

  /** The drives named in any of the quarters. */
  function DriveNames(quarters: seq<QuarterDrives>): set<string>
    decreases |quarters|
  {
    if |quarters| == 0 then {}
    else DriveNames(quarters[..|quarters| - 1]) + quarters[|quarters| - 1].drives.Keys
  }

  /** A name is collected iff some quarter lists it. */
  lemma {:induction false} DriveNamesMeans(quarters: seq<QuarterDrives>, d: string)
    ensures d in DriveNames(quarters) <==> exists i :: 0 <= i < |quarters| && d in quarters[i].drives
    decreases |quarters|
  {
    if |quarters| > 0 {
      var init := quarters[..|quarters| - 1];
      DriveNamesMeans(init, d);
      if exists i :: 0 <= i < |quarters| && d in quarters[i].drives {
        var i :| 0 <= i < |quarters| && d in quarters[i].drives;
        if i < |init| {
          assert init[i] == quarters[i];
        }
      }
      if exists i :: 0 <= i < |init| && d in init[i].drives {
        var i :| 0 <= i < |init| && d in init[i].drives;
        assert init[i] == quarters[i];
      }
    }
  }

  /** `_get_sorted_drive_models`: every drive named in any quarter, once each, ascending. */
  method GetSortedDriveModels(quarters: seq<QuarterDrives>) returns (r: seq<string>)
    ensures Ascending(r) && Distinct(r)
    ensures forall d :: d in r <==> exists i :: 0 <= i < |quarters| && d in quarters[i].drives
  {
    var names: set<string> := {};
    for i := 0 to |quarters|
      invariant names == DriveNames(quarters[..i])
    {
      assert quarters[..i + 1][..i] == quarters[..i];
      var models := Enumerate(quarters[i].drives.Keys);
      ghost var before := names;
      for j := 0 to |models|
        invariant before <= names <= before + quarters[i].drives.Keys
        invariant forall k :: 0 <= k < j ==> models[k] in names
      {
        if models[j] !in names {
          names := names + {models[j]};
        }
      }
    }
    assert quarters[..|quarters|] == quarters;
    r := Sorted(names);
    SortedAscending(names);
    SortedDistinct(names);
    forall d ensures d in r <==> exists i :: 0 <= i < |quarters| && d in quarters[i].drives {
      DriveNamesMeans(quarters, d);
    }
  }
}
