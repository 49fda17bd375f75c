/** The reader side of afr_parquet_to_quarterly_csv.py: the month partitions the parent hands
    out, and `_process_materialized_dataframe`, which filters one record batch by the drive
    model regexes and turns each kept row into a stats record. */
module StatsProducer {
  import opened Wrappers
  import opened Numerals
  import opened Calendar
  import opened Quarters
  import opened Patterns

  /** One row of a record batch: the four columns the reader selects. */
  datatype HealthRow = HealthRow(model: string, date: Date, serial: string, failure: int)

  /** One entry of a batch message. `failed` stands for the presence of the 'failure' key. */
  datatype StatsRecord = StatsRecord(model: string, serial: string, yearQuarter: string, failed: bool)

  /** The "YYYY Qq" key of a calendar date. */
  function YearQuarter(d: Date): string
    requires Valid(d)
  {
    Zero4(d.year) + " Q" + Decimal(QuarterOf(d.month))
  }

  /** The stats record a kept row becomes; 'failure' is set only for a failure value of 1. */
  function ToRecord(row: HealthRow): StatsRecord
    requires Valid(row.date)
  {
    StatsRecord(row.model, row.serial, YearQuarter(row.date), row.failure == 1)
  }

  predicate AllValid(rows: seq<HealthRow>) {
    forall i :: 0 <= i < |rows| ==> Valid(rows[i].date)
  }

  /** The raw model strings of some rows. */
  function ModelsOf(rows: seq<HealthRow>): set<string> {
    set i | 0 <= i < |rows| :: rows[i].model
  }

  /** The models of `rows` seen for the first time (not in `seen`) that some regex matches. */
  function NewMatches(search: (string, string) -> bool, patterns: seq<string>, seen: set<string>,
                      rows: seq<HealthRow>): set<string>
  {
    set m | m in ModelsOf(rows) && m !in seen && AnyMatch(search, patterns, m)
  }

  /** The records of the rows whose model is tracked, in row order. */
  function Tracked(tracked: set<string>, rows: seq<HealthRow>): seq<StatsRecord>
    requires AllValid(rows)
  {
    if |rows| == 0 then []
    else
      var last := rows[|rows| - 1];
      Tracked(tracked, rows[..|rows| - 1]) + (if last.model in tracked then [ToRecord(last)] else [])
  }

  /** `_process_materialized_dataframe`: a model is matched against the regexes only the first
      time the worker sees it, and joins `withStats` when one matches; every row whose model
      is tracked becomes a record, in row order. The batch yields exactly one message, empty
      when nothing is tracked. */
  method ProcessBatch(search: (string, string) -> bool, patterns: seq<string>,
                      withStats: set<string>, seen: set<string>, rows: seq<HealthRow>)
    returns (withStats': set<string>, seen': set<string>, message: seq<StatsRecord>)
    requires AllValid(rows)
    requires withStats <= seen
    ensures seen' == seen + ModelsOf(rows)
    ensures withStats' == withStats + NewMatches(search, patterns, seen, rows)
    ensures withStats' <= seen'
    ensures message == Tracked(withStats', rows)
  {
    withStats', seen', message := withStats, seen, [];
    var i := 0;
    while i < |rows|
      invariant 0 <= i <= |rows|
      invariant seen' == seen + ModelsOf(rows[..i])
      invariant withStats' == withStats + NewMatches(search, patterns, seen, rows[..i])
      invariant withStats' <= seen'
      invariant message == Tracked(withStats', rows[..i])
    {
      var row := rows[i];
      ghost var before := withStats';
      ModelsSnoc(rows, i);
      if row.model !in seen' {
        seen' := seen' + {row.model};
        var hit := ScanPatterns(search, patterns, row.model);
        if hit.Some? {
          withStats' := withStats' + {row.model};
        }
      }
      NewMatchesSnoc(search, patterns, seen, rows, i);
      TrackedAgree(before, withStats', rows[..i]);
      assert rows[..i + 1][..i] == rows[..i];
      if row.model in withStats' {
        var yq := YearQuarterOfIso(IsoFormat(row.date));
        YearQuarterOfDate(row.date);
        message := message + [StatsRecord(row.model, row.serial, yq.value, row.failure == 1)];
      }
      i := i + 1;
    }
    assert rows[..i] == rows;
  }

  lemma {:induction false} ModelsSnoc(rows: seq<HealthRow>, i: int)
    requires 0 <= i < |rows|
    ensures ModelsOf(rows[..i + 1]) == ModelsOf(rows[..i]) + {rows[i].model}
  {
    var a, b := rows[..i + 1], rows[..i];
    forall m | m in ModelsOf(a) ensures m in ModelsOf(b) + {rows[i].model} {
      var j :| 0 <= j < |a| && a[j].model == m;
      if j < i { assert b[j].model == m; }
    }
    assert a[i] == rows[i];
  }

  lemma {:induction false} NewMatchesSnoc(search: (string, string) -> bool, patterns: seq<string>, seen: set<string>,
                       rows: seq<HealthRow>, i: int)
    requires 0 <= i < |rows|
    ensures NewMatches(search, patterns, seen, rows[..i + 1])
      == NewMatches(search, patterns, seen, rows[..i])
         + (if rows[i].model !in seen && AnyMatch(search, patterns, rows[i].model)
            then {rows[i].model} else {})
  {
    ModelsSnoc(rows, i);
  }

  /** Two tracked sets that agree on the models of the rows keep the same records. */
  lemma {:induction false} TrackedAgree(a: set<string>, b: set<string>, rows: seq<HealthRow>)
    requires AllValid(rows)
    requires forall i :: 0 <= i < |rows| ==> (rows[i].model in a <==> rows[i].model in b)
    ensures Tracked(a, rows) == Tracked(b, rows)
    decreases |rows|
  {
    if |rows| > 0 {
      TrackedAgree(a, b, rows[..|rows| - 1]);
    }
  }

  /** What a message holds: the records of exactly the rows whose model is tracked, each
      carrying its row's model, serial number and quarter key, with the failure flag set
      exactly for a failure value of 1. */
  lemma {:induction false} TrackedMeans(tracked: set<string>, rows: seq<HealthRow>, rec: StatsRecord)
    requires AllValid(rows)
    ensures rec in Tracked(tracked, rows) <==>
      exists i :: 0 <= i < |rows| && rows[i].model in tracked && rec == ToRecord(rows[i])
  {
    if rec in Tracked(tracked, rows) {
      var i := TrackedSource(tracked, rows, rec);
    }
    if exists i :: 0 <= i < |rows| && rows[i].model in tracked && rec == ToRecord(rows[i]) {
      var i :| 0 <= i < |rows| && rows[i].model in tracked && rec == ToRecord(rows[i]);
      TrackedKeeps(tracked, rows, i);
    }
  }

  /** Every record of a message comes from a tracked row. */
  lemma {:induction false} TrackedSource(tracked: set<string>, rows: seq<HealthRow>, rec: StatsRecord)
    returns (i: nat)
    requires AllValid(rows)
    requires rec in Tracked(tracked, rows)
    ensures i < |rows| && rows[i].model in tracked && rec == ToRecord(rows[i])
    decreases |rows|
  {
    var init := rows[..|rows| - 1];
    var last := rows[|rows| - 1];
    if rec in Tracked(tracked, init) {
      i := TrackedSource(tracked, init, rec);
      assert rows[i] == init[i];
    } else {
      i := |rows| - 1;
    }
  }

  /** Every tracked row has its record in the message. */
  lemma {:induction false} TrackedKeeps(tracked: set<string>, rows: seq<HealthRow>, i: nat)
    requires AllValid(rows)
    requires i < |rows| && rows[i].model in tracked
    ensures ToRecord(rows[i]) in Tracked(tracked, rows)
    decreases |rows|
  {
    var init := rows[..|rows| - 1];
    if i < |rows| - 1 {
      assert init[i] == rows[i];
      TrackedKeeps(tracked, init, i);
    }
  }

  /** The quarter key of a record is that of the row's ISO date, as
      `_convert_date_to_year_quarter` slices it. */
  lemma {:induction false} ToRecordQuarter(row: HealthRow)
    requires Valid(row.date)
    ensures YearQuarterOfIso(IsoFormat(row.date)) == Ok(ToRecord(row).yearQuarter)
  {
    YearQuarterOfDate(row.date);
  }

  // ---------------------------------------------------------------------------------------
  // partitions

  /** The months handed to the readers: from the current month back to January 2013, newest
      first, one partition per (year, month). */
  predicate InScanRange(y: int, m: int, currentYear: int, currentMonth: int) {
    2013 <= y <= currentYear && 1 <= m <= 12 && (y < currentYear || m <= currentMonth)
  }

  /** The last month of `year` a partition is made for. */
  function LastMonth(year: int, currentYear: int, currentMonth: int): int {
    if year == currentYear then currentMonth else 12
  }

  /** The inner loop of the partition loop in `_get_afr_calc_input_data`: months 12 down to 1
      of one year, skipping the months after the current one. */
  method YearPartitions(year: int, currentYear: int, currentMonth: int) returns (ms: seq<(int, int)>)
    requires 1 <= currentMonth <= 12
    ensures |ms| == LastMonth(year, currentYear, currentMonth)
    ensures forall k :: 0 <= k < |ms| ==> ms[k] == (year, LastMonth(year, currentYear, currentMonth) - k)
  {
    ms := [];
    var month := 12;
    while month >= 1
      invariant 0 <= month <= 12
      invariant |ms| == if month >= LastMonth(year, currentYear, currentMonth) then 0
                        else LastMonth(year, currentYear, currentMonth) - month
      invariant forall k :: 0 <= k < |ms| ==> ms[k] == (year, LastMonth(year, currentYear, currentMonth) - k)
    {
      if !(year == currentYear && month > currentMonth) {
        ms := ms + [(year, month)];
      }
      month := month - 1;
    }
  }

  /** Appending the months of `year` to the partitions of the later years keeps them in
      range, newest first, and completes the months of `year`. */
  lemma {:induction false} AppendYear(ps: seq<(int, int)>, ms: seq<(int, int)>, year: int, currentYear: int, currentMonth: int)
    requires 1 <= currentMonth <= 12 && 2013 <= year <= currentYear
    requires |ms| == LastMonth(year, currentYear, currentMonth)
    requires forall k :: 0 <= k < |ms| ==> ms[k] == (year, LastMonth(year, currentYear, currentMonth) - k)
    requires forall i :: 0 <= i < |ps| ==> InScanRange(ps[i].0, ps[i].1, currentYear, currentMonth)
    requires forall i :: 0 <= i < |ps| ==> ps[i].0 > year
    requires forall i, j :: 0 <= i < j < |ps| ==> 12 * ps[j].0 + ps[j].1 < 12 * ps[i].0 + ps[i].1
    ensures forall i :: 0 <= i < |ps + ms| ==> InScanRange((ps + ms)[i].0, (ps + ms)[i].1, currentYear, currentMonth)
    ensures forall i :: 0 <= i < |ps + ms| ==> (ps + ms)[i].0 > year - 1
    ensures forall i, j :: 0 <= i < j < |ps + ms| ==>
      12 * (ps + ms)[j].0 + (ps + ms)[j].1 < 12 * (ps + ms)[i].0 + (ps + ms)[i].1
    ensures forall m :: InScanRange(year, m, currentYear, currentMonth) ==> (year, m) in ps + ms
  {
    var all := ps + ms;
    var last := LastMonth(year, currentYear, currentMonth);
    forall i | 0 <= i < |all|
      ensures InScanRange(all[i].0, all[i].1, currentYear, currentMonth) && all[i].0 > year - 1
    {
      if i >= |ps| { assert all[i] == ms[i - |ps|]; } else { assert all[i] == ps[i]; }
    }
    forall i, j | 0 <= i < j < |all|
      ensures 12 * all[j].0 + all[j].1 < 12 * all[i].0 + all[i].1
    {
      if j < |ps| {
        assert all[i] == ps[i] && all[j] == ps[j];
      } else if i < |ps| {
        assert all[i] == ps[i] && all[j] == ms[j - |ps|];
      } else {
        assert all[i] == ms[i - |ps|] && all[j] == ms[j - |ps|];
      }
    }
    forall m | InScanRange(year, m, currentYear, currentMonth)
      ensures (year, m) in all
    {
      assert all[|ps| + (last - m)] == (year, m);
    }
  }

  /** The partition loop of `_get_afr_calc_input_data`: years downward from the current one
      to 2013, the months of each year newest first. `now()` becomes the two parameters. */
  method Partitions(currentYear: int, currentMonth: int) returns (ps: seq<(int, int)>)
    requires 1 <= currentMonth <= 12
    ensures |ps| == if currentYear < 2013 then 0 else 12 * (currentYear - 2013) + currentMonth
    ensures forall i :: 0 <= i < |ps| ==> InScanRange(ps[i].0, ps[i].1, currentYear, currentMonth)
    ensures forall i, j :: 0 <= i < j < |ps| ==>
      12 * ps[j].0 + ps[j].1 < 12 * ps[i].0 + ps[i].1
    ensures forall y, m :: InScanRange(y, m, currentYear, currentMonth) ==> (y, m) in ps
  {
    ps := [];
    var year := currentYear;
    while year >= 2013
      invariant year <= currentYear && (currentYear >= 2013 ==> year >= 2012)
      invariant currentYear < 2013 ==> year == currentYear
      invariant |ps| == if year == currentYear then 0 else 12 * (currentYear - year - 1) + currentMonth
      invariant forall i :: 0 <= i < |ps| ==> InScanRange(ps[i].0, ps[i].1, currentYear, currentMonth)
      invariant forall i :: 0 <= i < |ps| ==> ps[i].0 > year
      invariant forall i, j :: 0 <= i < j < |ps| ==> 12 * ps[j].0 + ps[j].1 < 12 * ps[i].0 + ps[i].1
      invariant forall y, m :: InScanRange(y, m, currentYear, currentMonth) && y > year ==> (y, m) in ps
    {
      var ms := YearPartitions(year, currentYear, currentMonth);
      AppendYear(ps, ms, year, currentYear, currentMonth);
      ps := ps + ms;
      year := year - 1;
    }
    assert currentYear >= 2013 ==> year == 2012;
  }
}
