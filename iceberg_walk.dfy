/** `_compute_drive_quarterly_afrs` (afr_viz_csv_from_iceberg.py): per model, a walk over
    the quarter starts from the quarter of its earliest row to the quarter of its latest, with
    running sums of drive-days and failures that only the quarters with enough distinct drives
    add to. The walk is stated for any per-quarter row filter: the one the script uses, and
    the three-month one it evidently means. */
module IcebergWalk {
  import opened Wrappers
  import opened Calendar
  import opened Quarters
  import opened Order
  import opened Tallies

  /** One row of a model's daily health data: the day, the drive's serial number and its
      failure flag. */
  datatype HealthRow = HealthRow(date: Date, serial: string, failure: int)

  predicate ValidRows(rows: seq<HealthRow>) {
    forall i :: 0 <= i < |rows| ==> Valid(rows[i].date)
  }

  /** The row filter as written: the quarter start's year, and a month from the start month
      to the start month plus three, both ends included (`is_between`'s default). It spans
      four months. */
  predicate InWindowAsWritten(d: Date, start: Date) {
    d.year == start.year && start.month <= d.month <= start.month + 3
  }

  /** The filter evidently intended: the three months of the quarter. */
  predicate InQuarterWindow(d: Date, start: Date) {
    d.year == start.year && start.month <= d.month <= start.month + 2
  }

  /** The rows a quarter's filter keeps, in order. */
  function WindowRows(rows: seq<HealthRow>, start: Date, window: (Date, Date) -> bool): (w: seq<HealthRow>)
    ensures |w| <= |rows|
    decreases |rows|
  {
    if |rows| == 0 then []
    else
      var r := rows[|rows| - 1];
      WindowRows(rows[..|rows| - 1], start, window) + (if window(r.date, start) then [r] else [])
  }

  function SerialsOf(rows: seq<HealthRow>): set<string> {
    set i | 0 <= i < |rows| :: rows[i].serial
  }

  function FailureSum(rows: seq<HealthRow>): int
    decreases |rows|
  {
    if |rows| == 0 then 0 else FailureSum(rows[..|rows| - 1]) + rows[|rows| - 1].failure
  }

  /** The quarter's select: distinct serial numbers, rows (drive-days) and the sum of the
      failure flags. */
  datatype QuarterStats = QuarterStats(deployed: nat, days: nat, failures: int)

  function Stats(rows: seq<HealthRow>): QuarterStats {
    QuarterStats(|SerialsOf(rows)|, |rows|, FailureSum(rows))
  }

  function QuarterStatsAt(rows: seq<HealthRow>, start: Date, window: (Date, Date) -> bool): QuarterStats {
    Stats(WindowRows(rows, start, window))
  }

  /** One entry of a model's list: the quarter start (written out with `isoformat()`), the
      quarter's distinct drives, and the cumulative drive-days and failures its AFR is
      computed from (`AfrWalk.Afr`). */
  datatype Entry = Entry(start: Date, deployed: nat, cumulative: Counts)

  // ---------------------------------------------------------------------------------------
  // quarter starts in order

  /** Between quarter starts, date order is quarter-index order. */
  lemma {:induction false} StartOrder(a: Date, b: Date)
    requires QuarterStart(a) && QuarterStart(b)
    ensures BeforeEq(a, b) <==> QuarterIndex(a) <= QuarterIndex(b)
    ensures a == b <==> QuarterIndex(a) == QuarterIndex(b)
  {
  }

  lemma {:induction false} QuarterIndexMonotone(a: Date, b: Date)
    requires Valid(a) && Valid(b) && BeforeEq(a, b)
    ensures QuarterIndex(a) <= QuarterIndex(b)
  {
  }

  // ---------------------------------------------------------------------------------------
  // earliest and latest dates

  function Earliest(rows: seq<HealthRow>): (d: Date)
    requires |rows| > 0 && ValidRows(rows)
    ensures Valid(d) && exists i :: 0 <= i < |rows| && rows[i].date == d
    ensures forall i :: 0 <= i < |rows| ==> BeforeEq(d, rows[i].date)
    decreases |rows|
  {
    var last := rows[|rows| - 1].date;
    if |rows| == 1 then last
    else
      var e := Earliest(rows[..|rows| - 1]);
      assert forall i :: 0 <= i < |rows| - 1 ==> rows[i] == rows[..|rows| - 1][i];
      if Before(last, e) then last else e
  }

  function Latest(rows: seq<HealthRow>): (d: Date)
    requires |rows| > 0 && ValidRows(rows)
    ensures Valid(d) && exists i :: 0 <= i < |rows| && rows[i].date == d
    ensures forall i :: 0 <= i < |rows| ==> BeforeEq(rows[i].date, d)
    decreases |rows|
  {
    var last := rows[|rows| - 1].date;
    if |rows| == 1 then last
    else
      var e := Latest(rows[..|rows| - 1]);
      assert forall i :: 0 <= i < |rows| - 1 ==> rows[i] == rows[..|rows| - 1][i];
      if Before(e, last) then last else e
  }

  // ---------------------------------------------------------------------------------------
  // the walk

  /** `rest` after the entries `es`, or its error. */
  function Prepend(es: seq<Entry>, rest: Result<seq<Entry>, PyError>): Result<seq<Entry>, PyError> {
    if rest.Err? then rest else Ok(es + rest.value)
  }

  /** The walk from the quarter starting `start` up to the quarter holding `last`, with
      running sums `cum`, given each quarter's statistics by its start. A quarter with fewer
      than `minDrives` distinct drives adds nothing and gives no entry; any other adds its
      drive-days and failures and gives an entry, unless the drive-day sum is still zero
      (`_afr_calc` divides by it). Each step to the next quarter can fail past October 9999. */
  function WalkFrom(statsOf: Date -> QuarterStats, minDrives: int, start: Date, last: Date, cum: Counts)
    : Result<seq<Entry>, PyError>
    requires QuarterStart(start) && Valid(last)
    decreases QuarterIndex(last) - QuarterIndex(start) + 1
  {
    if !BeforeEq(start, last) then Ok([])
    else
      var s := statsOf(start);
      var next := NextStart(start);
      QuarterIndexMonotone(start, last);
      if s.deployed < minDrives then
        if next.Err? then Err(next.error) else WalkFrom(statsOf, minDrives, next.value, last, cum)
      else
        var c := Counts(cum.drives + s.days, cum.failures + s.failures);
        if c.drives == 0 then Err(ZeroDivisionError)
        else if next.Err? then Err(next.error)
        else Prepend([Entry(start, s.deployed, c)], WalkFrom(statsOf, minDrives, next.value, last, c))
  }

  /** The per-quarter select over a model's rows, with the given month filter. */
  function QueryStats(rows: seq<HealthRow>, window: (Date, Date) -> bool): Date -> QuarterStats {
    d => QuarterStatsAt(rows, d, window)
  }

  /** A model's list: the walk from the quarter of its earliest row to the quarter of its
      latest. A model without rows fails: `min()` of an empty column is `None`, which has no
      `year`. */
  function Walk(rows: seq<HealthRow>, minDrives: int, window: (Date, Date) -> bool): Result<seq<Entry>, PyError>
    requires ValidRows(rows)
  {
    if |rows| == 0 then Err(AttributeError)
    else WalkFrom(QueryStats(rows, window), minDrives, AlignToQuarter(Earliest(rows)), Latest(rows), Zero)
  }

  /** One model: its rows' earliest and latest dates, then the walk. */
  method ModelQuarters(rows: seq<HealthRow>, minDrives: int, window: (Date, Date) -> bool)
    returns (r: Result<seq<Entry>, PyError>)
    requires ValidRows(rows)
    ensures r == Walk(rows, minDrives, window)
  {
    if |rows| == 0 {
      return Err(AttributeError);
    }
    r := WalkQuarters(Earliest(rows), Latest(rows), QueryStats(rows, window), minDrives);
  }

  /** The `while quarter_start_date <= max_date` loop, from the start of the quarter of
      `first`. */
  method WalkQuarters(first: Date, last: Date, statsOf: Date -> QuarterStats, minDrives: int)
    returns (r: Result<seq<Entry>, PyError>)
    requires Valid(first) && Valid(last)
    ensures r == WalkFrom(statsOf, minDrives, AlignToQuarter(first), last, Zero)
  {
    var month := if first.month >= 10 then 10 else if first.month >= 7 then 7 else if first.month >= 4 then 4 else 1;
    var start := Date(first.year, month, 1);
    var cumulative := Zero;
    var entries: seq<Entry> := [];
    ghost var whole := WalkFrom(statsOf, minDrives, start, last, cumulative);
    PrependNothing(whole);
    while BeforeEq(start, last)
      invariant QuarterStart(start)
      invariant whole == Prepend(entries, WalkFrom(statsOf, minDrives, start, last, cumulative))
      decreases QuarterIndex(last) - QuarterIndex(start)
    {
      ghost var rest := WalkFrom(statsOf, minDrives, start, last, cumulative);
      var failure, taken, next;
      failure, taken, cumulative, next := QuarterStep(statsOf, minDrives, start, last, cumulative);
      if failure.Some? {
        PrependErr(entries, rest);
        return Err(failure.value);
      }
      PrependAssoc(entries, taken, WalkFrom(statsOf, minDrives, next, last, cumulative));
      entries := entries + taken;
      start := next;
    }
    assert entries + [] == entries;
    return Ok(entries);
  }

  /** One pass of the loop body at quarter start `start`: the quarter's select, its entry
      and sums when it has enough drives, and the step to the next quarter; `failure` is the
      exception that ends the walk. */
  method QuarterStep(statsOf: Date -> QuarterStats, minDrives: int, start: Date, last: Date, cumulative: Counts)
    returns (failure: Option<PyError>, taken: seq<Entry>, sums: Counts, next: Date)
    requires QuarterStart(start) && Valid(last) && BeforeEq(start, last)
    ensures failure.Some? ==> WalkFrom(statsOf, minDrives, start, last, cumulative) == Err(failure.value)
    ensures failure.None? ==> QuarterStart(next) && QuarterIndex(next) == QuarterIndex(start) + 1
    ensures failure.None? ==>
      WalkFrom(statsOf, minDrives, start, last, cumulative) == Prepend(taken, WalkFrom(statsOf, minDrives, next, last, sums))
  {
    var stats := statsOf(start);
    var quarter := IncrementQuarter(start);
    NextStartAgrees(start);
    WalkStep(statsOf, minDrives, start, last, cumulative);
    taken, sums, next := [], cumulative, start;
    if stats.deployed >= minDrives {
      sums := Counts(cumulative.drives + stats.days, cumulative.failures + stats.failures);
      if sums.drives == 0 {
        return Some(ZeroDivisionError), taken, sums, next;
      }
      taken := [Entry(start, stats.deployed, sums)];
    }
    if quarter.Err? {
      return Some(quarter.error), taken, sums, next;
    }
    failure, next := None, quarter.value;
  }

  /** `_increment_datetime_one_quarter` on a quarter start: the next quarter's start, or the
      `ValueError` for year 10000 after October 9999. */
  function NextStart(d: Date): (r: Result<Date, PyError>)
    requires QuarterStart(d)
    ensures r.Err? <==> d.month == 10 && d.year == 9999
    ensures r.Ok? ==> QuarterStart(r.value) && QuarterIndex(r.value) == QuarterIndex(d) + 1 && Before(d, r.value)
  {
    if d.month != 10 then Ok(Date(d.year, d.month + 3, 1))
    else if d.year == 9999 then Err(ValueError("year is out of range"))
    else Ok(Date(d.year + 1, 1, 1))
  }

  lemma {:induction false} NextStartAgrees(d: Date)
    requires QuarterStart(d)
    ensures IncrementQuarter(d) == NextStart(d)
  {
    if !(d.month == 10 && d.year == 9999) {
      IncrementQuarterStep(d);
    }
  }

  lemma {:induction false} BeforeTrans(a: Date, b: Date, c: Date)
    requires Before(a, b) && BeforeEq(b, c)
    ensures Before(a, c)
  {
  }

  lemma {:induction false} PrependErr(es: seq<Entry>, r: Result<seq<Entry>, PyError>)
    requires r.Err?
    ensures Prepend(es, r) == r
  {
  }

  lemma {:induction false} PrependNothing(r: Result<seq<Entry>, PyError>)
    ensures Prepend([], r) == r
  {
    if r.Ok? { assert [] + r.value == r.value; }
  }

  lemma {:induction false} PrependAssoc(es: seq<Entry>, fs: seq<Entry>, rest: Result<seq<Entry>, PyError>)
    ensures Prepend(es, Prepend(fs, rest)) == Prepend(es + fs, rest)
  {
    if rest.Ok? {
      assert es + (fs + rest.value) == es + fs + rest.value;
    }
  }

  /** One step of the walk from a start not after `last`, both branches at once: the
      quarter's entry (none when it has too few drives), then the rest of the walk. */
  lemma {:induction false} WalkStep(statsOf: Date -> QuarterStats, minDrives: int, start: Date, last: Date, cum: Counts)
    requires QuarterStart(start) && Valid(last) && BeforeEq(start, last)
    ensures var s := statsOf(start);
      var next := NextStart(start);
      var taken := s.deployed >= minDrives;
      var c := if taken then Counts(cum.drives + s.days, cum.failures + s.failures) else cum;
      (next.Ok? ==> QuarterStart(next.value) && QuarterIndex(next.value) == QuarterIndex(start) + 1)
      && WalkFrom(statsOf, minDrives, start, last, cum)
         == if taken && c.drives == 0 then Err(ZeroDivisionError)
            else if next.Err? then Err(next.error)
            else Prepend(if taken then [Entry(start, s.deployed, c)] else [], WalkFrom(statsOf, minDrives, next.value, last, c))
  {
    QuarterIndexMonotone(start, last);
    var s := statsOf(start);
    var next := NextStart(start);
    if s.deployed < minDrives && next.Ok? {
      var rest := WalkFrom(statsOf, minDrives, next.value, last, cum);
      assert WalkFrom(statsOf, minDrives, start, last, cum) == rest;
      PrependNothing(rest);
    }
  }

  // ---------------------------------------------------------------------------------------
  // what the walk produces

  /** The sums after quarter `s` is added to `c`. */
  function AddQuarter(c: Counts, s: QuarterStats): (r: Counts)
    ensures r.drives - c.drives == s.days && r.failures - c.failures == s.failures
  {
    Counts(c.drives + s.days, c.failures + s.failures)
  }

  /** Every entry is a quarter start from `start` to `last` with at least `minDrives` drives,
      and carries that quarter's distinct-drive count. */
  predicate EntriesWithin(es: seq<Entry>, statsOf: Date -> QuarterStats, minDrives: int, start: Date, last: Date) {
    forall i :: 0 <= i < |es| ==>
      QuarterStart(es[i].start) && BeforeEq(start, es[i].start) && BeforeEq(es[i].start, last)
      && es[i].deployed == statsOf(es[i].start).deployed && es[i].deployed >= minDrives
  }

  /** Quarter starts strictly ascending. */
  predicate StartsAscending(es: seq<Entry>) {
    forall i, j :: 0 <= i < j < |es| ==> Before(es[i].start, es[j].start)
  }

  /** The running sums: the first entry's are `cum` plus its quarter, and each later entry's
      are the previous entry's plus its own quarter, so nothing but the listed quarters is
      ever added and nothing is reset. */
  predicate Chained(es: seq<Entry>, statsOf: Date -> QuarterStats, cum: Counts) {
    (|es| > 0 ==> es[0].cumulative == AddQuarter(cum, statsOf(es[0].start)))
    && forall i :: 0 < i < |es| ==> es[i].cumulative == AddQuarter(es[i - 1].cumulative, statsOf(es[i].start))
  }

  /** One step of a walk that succeeds: the next quarter start, the sums after this quarter,
      and the entries the rest of the walk lists after this quarter's. */
  lemma {:induction false} WalkOkStep(statsOf: Date -> QuarterStats, minDrives: int, start: Date, last: Date, cum: Counts)
    returns (next: Date, c: Counts, rest: seq<Entry>)
    requires QuarterStart(start) && Valid(last) && BeforeEq(start, last)
    requires WalkFrom(statsOf, minDrives, start, last, cum).Ok?
    ensures QuarterStart(next) && QuarterIndex(next) == QuarterIndex(start) + 1 && Before(start, next)
    ensures c == if statsOf(start).deployed >= minDrives then AddQuarter(cum, statsOf(start)) else cum
    ensures WalkFrom(statsOf, minDrives, next, last, c) == Ok(rest)
    ensures WalkFrom(statsOf, minDrives, start, last, cum).value
            == (if statsOf(start).deployed >= minDrives then [Entry(start, statsOf(start).deployed, c)] else []) + rest
  {
    WalkStep(statsOf, minDrives, start, last, cum);
    var s := statsOf(start);
    next := NextStart(start).value;
    c := if s.deployed >= minDrives then AddQuarter(cum, s) else cum;
    rest := WalkFrom(statsOf, minDrives, next, last, c).value;
  }

  lemma {:induction false} WalkWithin(statsOf: Date -> QuarterStats, minDrives: int, start: Date, last: Date, cum: Counts)
    requires QuarterStart(start) && Valid(last)
    requires WalkFrom(statsOf, minDrives, start, last, cum).Ok?
    ensures EntriesWithin(WalkFrom(statsOf, minDrives, start, last, cum).value, statsOf, minDrives, start, last)
    decreases QuarterIndex(last) - QuarterIndex(start) + 1
  {
    if BeforeEq(start, last) {
      var next, c, rest := WalkOkStep(statsOf, minDrives, start, last, cum);
      WalkWithin(statsOf, minDrives, next, last, c);
      forall i | 0 <= i < |rest| ensures BeforeEq(start, rest[i].start) {
        BeforeTrans(start, next, rest[i].start);
      }
    }
  }

  lemma {:induction false} AscendingCons(e: Entry, rest: seq<Entry>)
    requires StartsAscending(rest) && forall k :: 0 <= k < |rest| ==> Before(e.start, rest[k].start)
    ensures StartsAscending([e] + rest)
  {
    var es := [e] + rest;
    forall i, j | 0 <= i < j < |es| ensures Before(es[i].start, es[j].start) {
      assert es[j] == rest[j - 1];
      if i > 0 {
        assert es[i] == rest[i - 1];
      }
    }
  }

  lemma {:induction false} WalkAscending(statsOf: Date -> QuarterStats, minDrives: int, start: Date, last: Date, cum: Counts)
    requires QuarterStart(start) && Valid(last)
    requires WalkFrom(statsOf, minDrives, start, last, cum).Ok?
    ensures StartsAscending(WalkFrom(statsOf, minDrives, start, last, cum).value)
    decreases QuarterIndex(last) - QuarterIndex(start) + 1
  {
    if BeforeEq(start, last) {
      var next, c, rest := WalkOkStep(statsOf, minDrives, start, last, cum);
      WalkAscending(statsOf, minDrives, next, last, c);
      if statsOf(start).deployed >= minDrives {
        WalkWithin(statsOf, minDrives, next, last, c);
        forall k | 0 <= k < |rest| ensures Before(start, rest[k].start) {
          BeforeTrans(start, next, rest[k].start);
        }
        AscendingCons(Entry(start, statsOf(start).deployed, c), rest);
      } else {
        assert [] + rest == rest;
      }
    }
  }

  lemma {:induction false} WalkChained(statsOf: Date -> QuarterStats, minDrives: int, start: Date, last: Date, cum: Counts)
    requires QuarterStart(start) && Valid(last)
    requires WalkFrom(statsOf, minDrives, start, last, cum).Ok?
    ensures Chained(WalkFrom(statsOf, minDrives, start, last, cum).value, statsOf, cum)
    decreases QuarterIndex(last) - QuarterIndex(start) + 1
  {
    if BeforeEq(start, last) {
      var next, c, rest := WalkOkStep(statsOf, minDrives, start, last, cum);
      WalkChained(statsOf, minDrives, next, last, c);
      if statsOf(start).deployed >= minDrives {
        var es := [Entry(start, statsOf(start).deployed, c)] + rest;
        assert forall i :: 0 < i < |es| ==> es[i] == rest[i - 1];
      } else {
        assert [] + rest == rest;
      }
    }
  }

  /** Every quarter from `start` to `last` with enough drives has an entry: the walk passes
      over none of them. */
  lemma {:induction false} WalkComplete(statsOf: Date -> QuarterStats, minDrives: int, start: Date, last: Date, cum: Counts, q: Date)
    returns (k: nat)
    requires QuarterStart(start) && Valid(last)
    requires WalkFrom(statsOf, minDrives, start, last, cum).Ok?
    requires QuarterStart(q) && BeforeEq(start, q) && BeforeEq(q, last) && statsOf(q).deployed >= minDrives
    ensures k < |WalkFrom(statsOf, minDrives, start, last, cum).value|
    ensures WalkFrom(statsOf, minDrives, start, last, cum).value[k].start == q
    decreases QuarterIndex(last) - QuarterIndex(start) + 1
  {
    var next, c, rest := WalkOkStep(statsOf, minDrives, start, last, cum);
    var taken := if statsOf(start).deployed >= minDrives then [Entry(start, statsOf(start).deployed, c)] else [];
    if q == start {
      return 0;
    }
    NextNotAfter(start, next, q, last);
    var j := WalkComplete(statsOf, minDrives, next, last, c, q);
    k := |taken| + j;
    AfterPrefix(taken, rest, j);
  }

  lemma {:induction false} AfterPrefix(taken: seq<Entry>, rest: seq<Entry>, j: nat)
    requires j < |rest|
    ensures |taken| + j < |taken + rest| && (taken + rest)[|taken| + j] == rest[j]
  {
  }

  /** A later quarter start than `start` is not before the one after it. */
  lemma {:induction false} NextNotAfter(start: Date, next: Date, q: Date, last: Date)
    requires QuarterStart(start) && QuarterStart(next) && QuarterStart(q) && Valid(last)
    requires QuarterIndex(next) == QuarterIndex(start) + 1
    requires BeforeEq(start, q) && q != start && BeforeEq(q, last)
    ensures BeforeEq(next, q)
    ensures QuarterIndex(start) < QuarterIndex(next) <= QuarterIndex(q) <= QuarterIndex(last)
  {
    StartOrder(start, q);
    StartOrder(next, q);
    QuarterIndexMonotone(q, last);
  }

  // ---------------------------------------------------------------------------------------
  // all models

  /** The month filter as written. */
  function WindowAsWritten(): (Date, Date) -> bool {
    (d: Date, start: Date) => InWindowAsWritten(d, start)
  }

  /** The month filter the model uses: the quarter's three months. */
  function QuarterWindow(): (Date, Date) -> bool {
    (d: Date, start: Date) => InQuarterWindow(d, start)
  }

  /** Rows for every model, with valid dates. */
  predicate ValidTable(rowsOf: map<string, seq<HealthRow>>) {
    forall m :: m in rowsOf ==> ValidRows(rowsOf[m])
  }

  /** Each model's walk with the month filter `window`, by name. */
  function Walks(rowsOf: map<string, seq<HealthRow>>, minDrives: int, window: (Date, Date) -> bool)
    : (w: map<string, Result<seq<Entry>, PyError>>)
    requires ValidTable(rowsOf)
    ensures w.Keys == rowsOf.Keys
  {
    map m | m in rowsOf :: Walk(rowsOf[m], minDrives, window)
  }

  /** The result of walking the models `names` in order, given each model's walk: the first
      walk that fails ends it, and a model gets a key only when its walk lists at least one
      quarter. */
  function ModelsTable(names: seq<string>, walks: map<string, Result<seq<Entry>, PyError>>)
    : Result<map<string, seq<Entry>>, PyError>
    requires forall i :: 0 <= i < |names| ==> names[i] in walks
    decreases |names|
  {
    if |names| == 0 then Ok(map[])
    else
      var m := names[|names| - 1];
      var prev := ModelsTable(names[..|names| - 1], walks);
      var w := walks[m];
      if prev.Err? then prev
      else if w.Err? then Err(w.error)
      else if |w.value| == 0 then prev
      else Ok(prev.value[m := w.value])
  }

  /** `_compute_drive_quarterly_afrs`: every model in sorted order, each walked with the month
      filter `window` (`WindowAsWritten()` as the script has it). */
  method AllModels(rowsOf: map<string, seq<HealthRow>>, minDrives: int, window: (Date, Date) -> bool)
    returns (r: Result<map<string, seq<Entry>>, PyError>)
    requires ValidTable(rowsOf)
    ensures r == ModelsTable(Sorted(rowsOf.Keys), Walks(rowsOf, minDrives, window))
  {
    var names := Sorted(rowsOf.Keys);
    ghost var walks := Walks(rowsOf, minDrives, window);
    WalksListed(rowsOf, minDrives, window, names, walks);
    r := WalkNames(rowsOf, names, minDrives, window, walks);
  }

  /** Every listed model is in `Walks` with its own walk. */
  lemma {:induction false} WalksListed(rowsOf: map<string, seq<HealthRow>>, minDrives: int, window: (Date, Date) -> bool,
                                       names: seq<string>, walks: map<string, Result<seq<Entry>, PyError>>)
    requires ValidTable(rowsOf) && walks == Walks(rowsOf, minDrives, window)
    requires forall x :: x in names <==> x in rowsOf
    ensures forall j :: 0 <= j < |names| ==>
      names[j] in rowsOf && names[j] in walks && walks[names[j]] == Walk(rowsOf[names[j]], minDrives, window)
  {
  }

  /** The loop of `_compute_drive_quarterly_afrs` over the models `names`, in order. */
  method WalkNames(rowsOf: map<string, seq<HealthRow>>, names: seq<string>, minDrives: int,
                   window: (Date, Date) -> bool, ghost walks: map<string, Result<seq<Entry>, PyError>>)
    returns (r: Result<map<string, seq<Entry>>, PyError>)
    requires ValidTable(rowsOf)
    requires forall j :: 0 <= j < |names| ==>
      names[j] in rowsOf && names[j] in walks && walks[names[j]] == Walk(rowsOf[names[j]], minDrives, window)
    ensures r == ModelsTable(names, walks)
  {
    var table: map<string, seq<Entry>> := map[];
    var i := 0;
    while i < |names|
      invariant 0 <= i <= |names|
      invariant ModelsTable(names[..i], walks) == Ok(table)
    {
      var m := names[i];
      var entries := ModelQuarters(rowsOf[m], minDrives, window);
      if entries.Err? {
        TableFails(names, i, walks, table);
        return Err(entries.error);
      }
      ghost var before := table;
      table := if |entries.value| > 0 then table[m := entries.value] else table;
      TableGrows(names, i, walks, m, entries, before, table);
      i := i + 1;
    }
    assert names[..i] == names;
    r := Ok(table);
  }

  /** A listed model whose walk succeeds: the table grows by its entry when it has quarters. */
  lemma {:induction false} TableGrows(names: seq<string>, i: nat, walks: map<string, Result<seq<Entry>, PyError>>,
                                      m: string, entries: Result<seq<Entry>, PyError>,
                                      table: map<string, seq<Entry>>, table': map<string, seq<Entry>>)
    requires forall j :: 0 <= j < |names| ==> names[j] in walks
    requires i < |names| && m == names[i] && walks[m] == entries && entries.Ok?
    requires ModelsTable(names[..i], walks) == Ok(table)
    requires table' == if |entries.value| > 0 then table[m := entries.value] else table
    ensures ModelsTable(names[..i + 1], walks) == Ok(table')
  {
    ModelsTableSnoc(names, i, walks);
  }

  /** A listed model whose walk fails: the whole table is that failure. */
  lemma {:induction false} TableFails(names: seq<string>, i: nat, walks: map<string, Result<seq<Entry>, PyError>>,
                                      table: map<string, seq<Entry>>)
    requires forall j :: 0 <= j < |names| ==> names[j] in walks
    requires i < |names| && walks[names[i]].Err? && ModelsTable(names[..i], walks) == Ok(table)
    ensures ModelsTable(names, walks) == Err(walks[names[i]].error)
  {
    ModelsTableSnoc(names, i, walks);
    ErrorPersists(names, i + 1, walks);
  }

  /** The table over one more model. */
  lemma {:induction false} ModelsTableSnoc(names: seq<string>, i: nat, walks: map<string, Result<seq<Entry>, PyError>>)
    requires forall j :: 0 <= j < |names| ==> names[j] in walks
    requires i < |names|
    ensures var prev := ModelsTable(names[..i], walks);
      var w := walks[names[i]];
      ModelsTable(names[..i + 1], walks)
      == if prev.Err? then prev
         else if w.Err? then Err(w.error)
         else if |w.value| == 0 then prev
         else Ok(prev.value[names[i] := w.value])
  {
    assert names[..i + 1][..i] == names[..i];
  }

  /** Once a walk fails, the later models change nothing: the table is that failure. */
  lemma {:induction false} ErrorPersists(names: seq<string>, j: nat, walks: map<string, Result<seq<Entry>, PyError>>)
    requires forall i :: 0 <= i < |names| ==> names[i] in walks
    requires j <= |names| && ModelsTable(names[..j], walks).Err?
    ensures ModelsTable(names, walks) == ModelsTable(names[..j], walks)
    decreases |names|
  {
    if j < |names| {
      var init := names[..|names| - 1];
      assert init[..j] == names[..j];
      ErrorPersists(init, j, walks);
    } else {
      assert names[..j] == names;
    }
  }

  /** A model has a key exactly when it is listed and its walk succeeds with at least one
      quarter, and its value is that walk's list. */
  lemma {:induction false} ModelsTableKeys(names: seq<string>, walks: map<string, Result<seq<Entry>, PyError>>, m: string)
    requires forall i :: 0 <= i < |names| ==> names[i] in walks
    requires ModelsTable(names, walks).Ok?
    ensures m in ModelsTable(names, walks).value <==> m in names && walks[m].Ok? && |walks[m].value| > 0
    ensures m in ModelsTable(names, walks).value ==> ModelsTable(names, walks).value[m] == walks[m].value
    decreases |names|
  {
    if |names| > 0 {
      var init := names[..|names| - 1];
      ModelsTableKeys(init, walks, m);
      assert names == init + [names[|names| - 1]];
      assert m in names <==> m in init || m == names[|names| - 1];
    }
  }

  /** An `Ok` table means every listed model's walk succeeded. */
  lemma {:induction false} ModelsTableOk(names: seq<string>, walks: map<string, Result<seq<Entry>, PyError>>, i: nat)
    requires forall j :: 0 <= j < |names| ==> names[j] in walks
    requires ModelsTable(names, walks).Ok? && i < |names|
    ensures walks[names[i]].Ok?
    decreases |names|
  {
    if i < |names| - 1 {
      ModelsTableOk(names[..|names| - 1], walks, i);
    }
  }

  // ---------------------------------------------------------------------------------------
  // the row filter

  /** As written, a row in the first month of a quarter (April, July, October) is also kept
      by the previous quarter's filter, so it is counted in two quarters. */
  lemma {:induction false} WindowOverlap(q: Date, d: Date)
    requires QuarterStart(q) && q.month != 10 && Valid(d)
    requires d.year == q.year && d.month == q.month + 3
    ensures InWindowAsWritten(d, q) && InWindowAsWritten(d, IncrementQuarter(q).value)
    ensures IncrementQuarter(q).Ok? && IncrementQuarter(q).value != q
  {
    IncrementQuarterStep(q);
  }

  /** The counterexample's table: one drive, seen on 15 January and on 15 April 2023, failing
      on the second day. */
  function SampleRows(): (rows: seq<HealthRow>)
    ensures ValidRows(rows)
  {
    [HealthRow(Date(2023, 1, 15), "A", 0), HealthRow(Date(2023, 4, 15), "A", 1)]
  }

  /** With the filter as written the April day is counted in both quarters: the first quarter
      has 2 drive-days, and the running sums reach 3 drive-days and 2 failures where there
      were 2 days and 1 failure. */
  lemma {:induction false} WindowDoubleCount()
    ensures Walk(SampleRows(), 1, WindowAsWritten())
            == Ok([Entry(Date(2023, 1, 1), 1, Counts(2, 1)), Entry(Date(2023, 4, 1), 1, Counts(3, 2))])
  {
    JanAsWritten();
    AprAsWritten();
    SampleWalkWith(WindowAsWritten(), QuarterStats(1, 2, 1), QuarterStats(1, 1, 1), Counts(2, 1), Counts(3, 2));
  }

  /** With the three-month filter each day is counted once: 1 drive-day in the first quarter,
      2 drive-days and 1 failure by the end of the second. */
  lemma {:induction false} WindowCountedOnce()
    ensures Walk(SampleRows(), 1, QuarterWindow())
            == Ok([Entry(Date(2023, 1, 1), 1, Counts(1, 0)), Entry(Date(2023, 4, 1), 1, Counts(2, 1))])
  {
    JanInQuarter();
    AprInQuarter();
    SampleWalkWith(QuarterWindow(), QuarterStats(1, 1, 0), QuarterStats(1, 1, 1), Counts(1, 0), Counts(2, 1));
  }

  /** As written, January's filter keeps both days. */
  lemma {:induction false} JanAsWritten()
    ensures QuarterStatsAt(SampleRows(), Date(2023, 1, 1), WindowAsWritten()) == QuarterStats(1, 2, 1)
  {
    var rows := SampleRows();
    WindowRowsTwo(rows, Date(2023, 1, 1), WindowAsWritten());
    assert [rows[0]] + [rows[1]] == rows;
    StatsTwoSame(rows);
  }

  /** As written, April's filter keeps the April day. */
  lemma {:induction false} AprAsWritten()
    ensures QuarterStatsAt(SampleRows(), Date(2023, 4, 1), WindowAsWritten()) == QuarterStats(1, 1, 1)
  {
    var rows := SampleRows();
    WindowRowsTwo(rows, Date(2023, 4, 1), WindowAsWritten());
    assert [] + [rows[1]] == [rows[1]];
    StatsOne([rows[1]]);
  }

  /** The three-month filter keeps the January day for January. */
  lemma {:induction false} JanInQuarter()
    ensures QuarterStatsAt(SampleRows(), Date(2023, 1, 1), QuarterWindow()) == QuarterStats(1, 1, 0)
  {
    var rows := SampleRows();
    WindowRowsTwo(rows, Date(2023, 1, 1), QuarterWindow());
    assert [rows[0]] + [] == [rows[0]];
    StatsOne([rows[0]]);
  }

  /** The three-month filter keeps the April day for April. */
  lemma {:induction false} AprInQuarter()
    ensures QuarterStatsAt(SampleRows(), Date(2023, 4, 1), QuarterWindow()) == QuarterStats(1, 1, 1)
  {
    var rows := SampleRows();
    WindowRowsTwo(rows, Date(2023, 4, 1), QuarterWindow());
    assert [] + [rows[1]] == [rows[1]];
    StatsOne([rows[1]]);
  }

  /** The counterexample's walk with any filter giving one drive in each of its quarters. */
  lemma {:induction false} SampleWalkWith(window: (Date, Date) -> bool, first: QuarterStats, second: QuarterStats,
                                           c1: Counts, c2: Counts)
    requires QuarterStatsAt(SampleRows(), Date(2023, 1, 1), window) == first
    requires QuarterStatsAt(SampleRows(), Date(2023, 4, 1), window) == second
    requires first.deployed == 1 && second.deployed == 1 && first.days > 0
    requires c1 == AddQuarter(Zero, first) && c2 == AddQuarter(c1, second)
    ensures Walk(SampleRows(), 1, window) == Ok([Entry(Date(2023, 1, 1), 1, c1), Entry(Date(2023, 4, 1), 1, c2)])
  {
    SampleBounds();
    SampleWalk(QueryStats(SampleRows(), window), first, second);
  }

  /** The counterexample's dates run from 15 January to 15 April 2023. */
  lemma {:induction false} SampleBounds()
    ensures Earliest(SampleRows()) == Date(2023, 1, 15) && Latest(SampleRows()) == Date(2023, 4, 15)
    ensures AlignToQuarter(Date(2023, 1, 15)) == Date(2023, 1, 1)
  {
    var rows := SampleRows();
    assert rows[..1] == [rows[0]];
  }

  /** A walk from January to 15 April 2023 over two quarters with one drive each. */
  lemma {:induction false} SampleWalk(f: Date -> QuarterStats, first: QuarterStats, second: QuarterStats)
    requires f(Date(2023, 1, 1)) == first && f(Date(2023, 4, 1)) == second
    requires first.deployed == 1 && second.deployed == 1 && first.days > 0
    ensures WalkFrom(f, 1, Date(2023, 1, 1), Date(2023, 4, 15), Zero)
            == Ok([Entry(Date(2023, 1, 1), 1, AddQuarter(Zero, first)),
                   Entry(Date(2023, 4, 1), 1, AddQuarter(AddQuarter(Zero, first), second))])
  {
    var jan, apr, jul, last := Date(2023, 1, 1), Date(2023, 4, 1), Date(2023, 7, 1), Date(2023, 4, 15);
    var c1 := AddQuarter(Zero, first);
    var c2 := AddQuarter(c1, second);
    assert NextStart(jan) == Ok(apr) && NextStart(apr) == Ok(jul);
    assert WalkFrom(f, 1, jul, last, c2) == Ok([]);
    WalkStep(f, 1, apr, last, c1);
    assert [Entry(apr, 1, c2)] + [] == [Entry(apr, 1, c2)];
    WalkStep(f, 1, jan, last, Zero);
    assert [Entry(jan, 1, c1)] + [Entry(apr, 1, c2)] == [Entry(jan, 1, c1), Entry(apr, 1, c2)];
  }

  /** The rows of a two-row table a filter keeps. */
  lemma {:induction false} WindowRowsTwo(rows: seq<HealthRow>, start: Date, window: (Date, Date) -> bool)
    requires |rows| == 2
    ensures WindowRows(rows, start, window)
            == (if window(rows[0].date, start) then [rows[0]] else []) + (if window(rows[1].date, start) then [rows[1]] else [])
  {
    assert rows[..1] == [rows[0]];
    assert rows[..1][..0] == [];
  }

  /** Two rows of the same drive: one drive, two days. */
  lemma {:induction false} StatsTwoSame(rows: seq<HealthRow>)
    requires |rows| == 2 && rows[0].serial == rows[1].serial
    ensures Stats(rows) == QuarterStats(1, 2, rows[0].failure + rows[1].failure)
  {
    assert rows[..1] == [rows[0]];
    assert rows[..1][..0] == [];
    assert FailureSum(rows) == FailureSum(rows[..1]) + rows[1].failure;
    assert FailureSum(rows[..1]) == FailureSum([]) + rows[0].failure;
    assert SerialsOf(rows) == {rows[0].serial};
    assert |{rows[0].serial}| == 1;
  }

  /** A one-row table whose row the filter keeps: one drive, one day, its failure flag. */
  lemma {:induction false} CountOne(rows: seq<HealthRow>, start: Date, window: (Date, Date) -> bool)
    requires |rows| == 1 && window(rows[0].date, start)
    ensures QuarterStatsAt(rows, start, window) == QuarterStats(1, 1, rows[0].failure)
  {
    KeepOne(rows, start, window);
    StatsOne(rows);
  }

  lemma {:induction false} KeepOne(rows: seq<HealthRow>, start: Date, window: (Date, Date) -> bool)
    requires |rows| == 1 && window(rows[0].date, start)
    ensures WindowRows(rows, start, window) == rows
  {
    assert rows[..0] == [];
  }

  lemma {:induction false} StatsOne(rows: seq<HealthRow>)
    requires |rows| == 1
    ensures Stats(rows) == QuarterStats(1, 1, rows[0].failure)
  {
    assert rows[..0] == [];
    assert FailureSum(rows) == FailureSum([]) + rows[0].failure;
    assert SerialsOf(rows) == {rows[0].serial};
    assert |{rows[0].serial}| == 1;
  }

  /** The three-month filter keeps a row for exactly one quarter start: the one of the
      quarter that holds it. */
  lemma {:induction false} QuarterWindowExact(d: Date, q: Date)
    requires Valid(d) && QuarterStart(q)
    ensures InQuarterWindow(d, q) <==> q == AlignToQuarter(d)
  {
  }
}
