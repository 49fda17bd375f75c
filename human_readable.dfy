/** generate_human_readable_afr_data.py: the Trino CSV read into per-(model, day) drive and
    failure sums, the largest deployment of a model, and the quarter-sized walk that
    consumes each interesting model's days in place. The model cleaner is the one of
    generate_drive_distribution_csv.py (`DriveDistribution.CleanModel`); the two scripts
    carry the same function. */
module HumanReadable {
  import opened Wrappers
  import opened Text
  import opened Order
  import opened Numerals
  import opened Calendar
  import opened Quarters
  import opened Tallies
  import opened Patterns
  import DriveDistribution

  // ---------------------------------------------------------------------------------------
  // `_read_trino_csv`

  /** A row of the Trino CSV: the raw model, the day, and the `drive_count` and
      `failure_count` texts. */
  datatype AfrRow = AfrRow(model: string, date: Date, driveCount: string, failureCount: string)

  /** A dictionary keyed by cleaned model, with its keys in insertion order. */
  datatype TrinoCsv = TrinoCsv(byModel: map<string, map<Date, Counts>>, models: seq<string>)

  /** Python's dictionary invariant: the insertion order lists every key exactly once. */
  ghost predicate OrderedKeys(t: TrinoCsv) {
    Distinct(t.models) && forall m :: m in t.models <==> m in t.byModel
  }

  /** One row: the cleaned model gets a dictionary on first sight, then the cell of the day
      is created at zero and `int(drive_count)` and `int(failure_count)` are added to it
      (either conversion may raise). */
  function ReadStep(acc: TrinoCsv, row: AfrRow): Result<TrinoCsv, PyError> {
    var model := DriveDistribution.CleanModel(row.model);
    var models := if model in acc.byModel then acc.models else acc.models + [model];
    var drives := ParseInt(row.driveCount);
    if drives.Err? then Err(drives.error)
    else
      var failures := ParseInt(row.failureCount);
      if failures.Err? then Err(failures.error)
      else Ok(TrinoCsv(AddAt(acc.byModel, model, row.date, Counts(drives.value, failures.value)), models))
  }

  /** The dictionary after the rows in order; the first error ends the run. */
  function ReadTable(rows: seq<AfrRow>): Result<TrinoCsv, PyError>
    decreases |rows|
  {
    if |rows| == 0 then Ok(TrinoCsv(map[], []))
    else
      var before := ReadTable(rows[..|rows| - 1]);
      if before.Err? then before else ReadStep(before.value, rows[|rows| - 1])
  }

  /** Once a prefix has failed, so has every longer run. */
  lemma {:induction false} ReadErrPersists(rows: seq<AfrRow>, i: nat)
    requires i <= |rows| && ReadTable(rows[..i]).Err?
    ensures ReadTable(rows) == ReadTable(rows[..i])
    decreases |rows|
  {
    if i < |rows| {
      var init := rows[..|rows| - 1];
      assert init[..i] == rows[..i];
      ReadErrPersists(init, i);
    } else {
      assert rows[..i] == rows;
    }
  }

  /** The table of the first `i + 1` rows is the table of the first `i` with row `i` read. */
  lemma {:induction false} ReadUnfold(rows: seq<AfrRow>, i: nat)
    requires i < |rows| && ReadTable(rows[..i]).Ok?
    ensures ReadTable(rows[..i + 1]) == ReadStep(ReadTable(rows[..i]).value, rows[i])
  {
    assert rows[..i + 1][..i] == rows[..i];
  }

  /** A row whose two counts parse is added to its cell; one whose counts do not fails. */
  lemma {:induction false} ReadStepIs(acc: TrinoCsv, row: AfrRow, data: map<string, map<Date, Counts>>)
    requires data == acc.byModel || (DriveDistribution.CleanModel(row.model) !in acc.byModel
      && data == acc.byModel[DriveDistribution.CleanModel(row.model) := map[]])
    ensures ParseInt(row.driveCount).Err? ==> ReadStep(acc, row) == Err(ParseInt(row.driveCount).error)
    ensures ParseInt(row.driveCount).Ok? && ParseInt(row.failureCount).Err? ==>
      ReadStep(acc, row) == Err(ParseInt(row.failureCount).error)
    ensures ParseInt(row.driveCount).Ok? && ParseInt(row.failureCount).Ok? ==>
      var model := DriveDistribution.CleanModel(row.model);
      ReadStep(acc, row) == Ok(TrinoCsv(
        AddAt(data, model, row.date, Counts(ParseInt(row.driveCount).value, ParseInt(row.failureCount).value)),
        if model in acc.byModel then acc.models else acc.models + [model]))
  {
    var drives := ParseInt(row.driveCount);
    var failures := ParseInt(row.failureCount);
    if drives.Ok? && failures.Ok? && data != acc.byModel {
      AddAtFresh(acc.byModel, DriveDistribution.CleanModel(row.model), row.date, Counts(drives.value, failures.value));
    }
  }

  /** Creating a missing first key at empty first changes nothing that adding a cell under it
      does not already do. */
  lemma {:induction false} AddAtFresh(m: map<string, map<Date, Counts>>, k1: string, k2: Date, c: Counts)
    requires k1 !in m
    ensures AddAt(m[k1 := map[]], k1, k2, c) == AddAt(m, k1, k2, c)
  {
    assert CellOr(m[k1 := map[]], k1, k2) == Zero == CellOr(m, k1, k2);
    assert m[k1 := map[]][k1 := map[][k2 := Plus(Zero, c)]] == m[k1 := map[][k2 := Plus(Zero, c)]];
  }

  /** The row loop, with its set of models seen so far. */
  method ReadTrinoCsv(rows: seq<AfrRow>) returns (r: Result<TrinoCsv, PyError>)
    ensures r == ReadTable(rows)
  {
    var known: set<string> := {};
    var data: map<string, map<Date, Counts>> := map[];
    var models: seq<string> := [];
    for i := 0 to |rows|
      invariant ReadTable(rows[..i]) == Ok(TrinoCsv(data, models))
      invariant known == data.Keys
    {
      ghost var acc := TrinoCsv(data, models);
      var model := DriveDistribution.CleanModel(rows[i].model);
      if model !in known {
        known := known + {model};
        data := data[model := map[]];
        models := models + [model];
      }
      ReadUnfold(rows, i);
      ReadStepIs(acc, rows[i], data);
      var drives := ParseInt(rows[i].driveCount);
      if drives.Err? {
        ReadErrPersists(rows, i + 1);
        return Err(drives.error);
      }
      var failures := ParseInt(rows[i].failureCount);
      if failures.Err? {
        ReadErrPersists(rows, i + 1);
        return Err(failures.error);
      }
      data := AddAt(data, model, rows[i].date, Counts(drives.value, failures.value));
    }
    assert rows[..|rows|] == rows;
    return Ok(TrinoCsv(data, models));
  }

  /** The cleaned models of the rows, in row order. */
  function CleanedModels(rows: seq<AfrRow>): (r: seq<string>)
    ensures |r| == |rows|
    decreases |rows|
  {
    if |rows| == 0 then []
    else CleanedModels(rows[..|rows| - 1]) + [DriveDistribution.CleanModel(rows[|rows| - 1].model)]
  }

  /** The names of a list, each at its first occurrence. */
  function FirstSeen(names: seq<string>): seq<string>
    decreases |names|
  {
    if |names| == 0 then []
    else
      var before := FirstSeen(names[..|names| - 1]);
      if names[|names| - 1] in before then before else before + [names[|names| - 1]]
  }

  /** The dictionary lists each cleaned model once, in the order of its first row. */
  lemma {:induction false} ReadKeys(rows: seq<AfrRow>)
    requires ReadTable(rows).Ok?
    ensures OrderedKeys(ReadTable(rows).value)
    ensures ReadTable(rows).value.models == FirstSeen(CleanedModels(rows))
    decreases |rows|
  {
    if |rows| > 0 {
      var init := rows[..|rows| - 1];
      ReadKeys(init);
      var t := ReadTable(init).value;
      var model := DriveDistribution.CleanModel(rows[|rows| - 1].model);
      assert CleanedModels(rows)[..|rows| - 1] == CleanedModels(init);
      var u := ReadTable(rows).value;
      assert u.byModel.Keys == t.byModel.Keys + {model};
      if model !in t.byModel {
        assert model !in t.models;
        forall a, b | 0 <= a < b < |u.models| ensures u.models[a] != u.models[b] {
          if b == |t.models| {
            assert u.models[a] in t.models;
          }
        }
      }
    }
  }

  /** The counts a row adds: its two parsed values (zero where a value does not parse). */
  function RowCounts(row: AfrRow): Counts {
    var drives := ParseInt(row.driveCount);
    var failures := ParseInt(row.failureCount);
    Counts(if drives.Ok? then drives.value else 0, if failures.Ok? then failures.value else 0)
  }

  /** The counts of the rows of `model` (once cleaned) on `date`, in row order. */
  function CountsOn(rows: seq<AfrRow>, model: string, date: Date): seq<Counts>
    decreases |rows|
  {
    if |rows| == 0 then []
    else
      var last := rows[|rows| - 1];
      CountsOn(rows[..|rows| - 1], model, date)
        + (if DriveDistribution.CleanModel(last.model) == model && last.date == date then [RowCounts(last)] else [])
  }

  /** Field-wise sum of a list of counts. */
  function SumCounts(s: seq<Counts>): Counts
    decreases |s|
  {
    if |s| == 0 then Zero
    else
      var before := SumCounts(s[..|s| - 1]);
      Counts(before.drives + s[|s| - 1].drives, before.failures + s[|s| - 1].failures)
  }

  /** One row adds its counts to its own cell and to no other. */
  lemma {:induction false} ReadStepCell(acc: TrinoCsv, row: AfrRow, model: string, date: Date)
    requires ReadStep(acc, row).Ok?
    ensures var after := ReadStep(acc, row).value.byModel;
      var mine := DriveDistribution.CleanModel(row.model) == model && row.date == date;
      var c := CellOr(acc.byModel, model, date);
      CellOr(after, model, date) ==
        (if mine then Counts(c.drives + RowCounts(row).drives, c.failures + RowCounts(row).failures) else c)
      && ((model in after && date in after[model]) <==> (model in acc.byModel && date in acc.byModel[model]) || mine)
  {
    AddAtElsewhere(acc.byModel, DriveDistribution.CleanModel(row.model), row.date, RowCounts(row));
  }

  /** Each cell holds the sums of `drive_count` and of `failure_count` over the rows of its
      model and day, and a cell exists exactly when at least one such row does. */
  lemma {:induction false} ReadCell(rows: seq<AfrRow>, model: string, date: Date)
    requires ReadTable(rows).Ok?
    ensures var t := ReadTable(rows).value.byModel;
      CellOr(t, model, date) == SumCounts(CountsOn(rows, model, date))
      && ((model in t && date in t[model]) <==> |CountsOn(rows, model, date)| > 0)
    decreases |rows|
  {
    if |rows| > 0 {
      var init := rows[..|rows| - 1];
      var last := rows[|rows| - 1];
      ReadCell(init, model, date);
      ReadStepCell(ReadTable(init).value, last, model, date);
      var before := CountsOn(init, model, date);
      if DriveDistribution.CleanModel(last.model) == model && last.date == date {
        assert (before + [RowCounts(last)])[..|before|] == before;
      } else {
        assert before + [] == before;
      }
    }
  }

  // ---------------------------------------------------------------------------------------
  // `_get_max_drives_deployed`

  /** The largest `drive_count` of a model's days, or 0 when there are none (or all are
      negative): the running maximum starts at 0. */
  ghost function MaxDrives(days: map<Date, Counts>): (r: int)
    ensures r >= 0 && forall d :: d in days ==> days[d].drives <= r
    ensures r == 0 || exists d :: d in days && days[d].drives == r
    decreases |days|
  {
    if |days| == 0 then 0
    else
      var d :| d in days;
      var rest := MaxDrives(days - {d});
      assert forall e :: e in days && e != d ==> e in days - {d};
      if days[d].drives > rest then days[d].drives else rest
  }

  /** The three properties of a maximum pin it down. */
  lemma {:induction false} MaxDrivesUnique(days: map<Date, Counts>, r: int)
    requires r >= 0 && forall d :: d in days ==> days[d].drives <= r
    requires r == 0 || exists d :: d in days && days[d].drives == r
    ensures r == MaxDrives(days)
  {
    var m := MaxDrives(days);
    if r != 0 {
      var d :| d in days && days[d].drives == r;
      assert r <= m;
    }
    if m != 0 {
      var d :| d in days && days[d].drives == m;
      assert m <= r;
    }
  }

  /** The loop over the dictionary's days, keeping the larger count. */
  method GetMaxDrivesDeployed(days: map<Date, Counts>) returns (r: int)
    ensures r >= 0 && forall d :: d in days ==> days[d].drives <= r
    ensures r == 0 || exists d :: d in days && days[d].drives == r
    ensures r == MaxDrives(days)
  {
    r := 0;
    var todo := days.Keys;
    while todo != {}
      invariant todo <= days.Keys
      invariant r >= 0 && forall d :: d in days && d !in todo ==> days[d].drives <= r
      invariant r == 0 || exists d :: d in days && days[d].drives == r
      decreases |todo|
    {
      var d :| d in todo;
      if days[d].drives > r {
        r := days[d].drives;
      }
      todo := todo - {d};
    }
    MaxDrivesUnique(days, r);
  }

  // ---------------------------------------------------------------------------------------
  // `_generate_human_readable_data`

  /** What the walk reports (it prints it): a model of interest with its largest
      deployment, then one line per increment with its year and quarter counters, its
      number of days and its first and last day. */
  datatype Line =
    | Interest(model: string, drives: int)
    | Increment(year: nat, quarter: nat, days: nat, first: Date, last: Date)

  /** The fewest drives a model must have deployed on some day to be walked. */
  const MinMaxDeployedDrives := 1000

  /** The number of days in one increment. */
  const DaysPerIncrement := 91

  /** A model is walked when some pattern occurs in its name and its largest deployment
      reaches the minimum. */
  ghost predicate Walked(model: string, days: map<Date, Counts>,
                         searches: (string, string) -> bool, patterns: seq<string>)
  {
    AnyMatch(searches, patterns, model) && MaxDrives(days) >= MinMaxDeployedDrives
  }

  /** The number of days the next increment takes when `left` remain. */
  function Take(left: nat): (n: nat)
    ensures n <= left && n <= DaysPerIncrement && (left > 0 ==> n > 0)
  {
    if DaysPerIncrement < left then DaysPerIncrement else left
  }

  /** The increments over sorted days, the first of them numbered `k` (from 0): each takes
      the next 91 days, or all that are left. */
  function Increments(dates: seq<Date>, k: nat): seq<Line>
    decreases |dates|
  {
    if |dates| == 0 then []
    else
      var n := Take(|dates|);
      var yq := DisplayLabel(k);
      [Increment(yq.0, yq.1, n, dates[0], dates[n - 1])] + Increments(dates[n..], k + 1)
  }

  /** What one model contributes to the report. */
  ghost function ModelLines(model: string, days: map<Date, Counts>): seq<Line> {
    [Interest(model, MaxDrives(days))] + Increments(SortedDates(days.Keys), 0)
  }

  /** The report of the walk over the models in dictionary order. */
  ghost function Report(byModel: map<string, map<Date, Counts>>, models: seq<string>,
                        searches: (string, string) -> bool, patterns: seq<string>): seq<Line>
    decreases |models|
  {
    if |models| == 0 then []
    else
      var m := models[|models| - 1];
      Report(byModel, models[..|models| - 1], searches, patterns)
        + (if m in byModel && Walked(m, byModel[m], searches, patterns) then ModelLines(m, byModel[m]) else [])
  }

  /** The dictionary after the walk: every walked model has lost all its days; the others
      are untouched. */
  ghost function Drained(byModel: map<string, map<Date, Counts>>,
                         searches: (string, string) -> bool, patterns: seq<string>)
    : map<string, map<Date, Counts>>
  {
    map m | m in byModel :: if Walked(m, byModel[m], searches, patterns) then map[] else byModel[m]
  }

  /** There are `ceil(n / 91)` increments for `n` days. */
  lemma {:induction false} IncrementCount(dates: seq<Date>, k: nat)
    ensures |Increments(dates, k)| == (|dates| + DaysPerIncrement - 1) / DaysPerIncrement
    decreases |dates|
  {
    if |dates| > 0 {
      var n := Take(|dates|);
      IncrementCount(dates[n..], k + 1);
    }
  }

  /** Increment `i` covers days `91 i` up to `91 i + 90` (or the last day), and carries the
      year and quarter counters of increment number `k + i`. */
  lemma {:induction false} IncrementAt(dates: seq<Date>, k: nat, i: nat)
    requires i < |Increments(dates, k)|
    ensures DaysPerIncrement * i < |dates|
    ensures var left := |dates| - DaysPerIncrement * i;
      var n := Take(left);
      var yq := DisplayLabel(k + i);
      Increments(dates, k)[i]
        == Increment(yq.0, yq.1, n, dates[DaysPerIncrement * i], dates[DaysPerIncrement * i + n - 1])
    decreases i
  {
    IncrementsDrop(dates, k, i, k + i);
    var d := dates[DaysPerIncrement * i..];
    assert Increments(dates, k)[i] == Increments(d, k + i)[0];
  }

  /** The increments from number `i` on (numbered from `j = k + i`) are those of the days
      from `91 i` on. */
  lemma {:induction false} IncrementsDrop(dates: seq<Date>, k: nat, i: nat, j: nat)
    requires i < |Increments(dates, k)| && j == k + i
    ensures DaysPerIncrement * i < |dates|
    ensures Increments(dates, k)[i..] == Increments(dates[DaysPerIncrement * i..], j)
    decreases i
  {
    if i == 0 {
      assert dates[DaysPerIncrement * i..] == dates;
    } else {
      var n := Take(|dates|);
      var rest := dates[n..];
      IncrementsDrop(rest, k + 1, i - 1, j);
      assert n == DaysPerIncrement && DaysPerIncrement * i == n + DaysPerIncrement * (i - 1);
      assert rest[DaysPerIncrement * (i - 1)..] == dates[DaysPerIncrement * i..];
      var first := Increments(dates, k)[0];
      assert Increments(dates, k) == [first] + Increments(rest, k + 1);
      DropAfterHead(first, Increments(rest, k + 1), i);
    }
  }

  lemma {:induction false} DropAfterHead<T>(x: T, s: seq<T>, i: nat)
    requires 0 < i <= |s| + 1
    ensures ([x] + s)[i..] == s[i - 1..]
  {
  }

  /** The script's year counter before increment number `inc` (from 1). */
  function YearCounter(inc: int): int {
    (inc + 2) / 4
  }

  /** The script's counters: before increment number `inc` (from 1) the year counter is
      `(inc + 2) / 4`; the increment is labelled with quarter `inc % 4` (4 for 0), bumping
      the year at quarter 1, which is the label `DisplayLabel(inc - 1)`. */
  lemma {:induction false} CounterLabels(inc: int, year: int)
    requires inc >= 1 && year == YearCounter(inc)
    ensures var q := inc % 4;
      var quarter := if q == 0 then 4 else q;
      var next := if q == 1 then year + 1 else year;
      next >= 0 && (next, quarter) == DisplayLabel(inc - 1) && next == YearCounter(inc + 1)
  {
  }

  /** The dictionary the walk empties in place, with its keys in insertion order. */
  class TrinoData {
    var byModel: map<string, map<Date, Counts>>
    var models: seq<string>

    constructor (csv: TrinoCsv)
      ensures byModel == csv.byModel && models == csv.models
    {
      byModel := csv.byModel;
      models := csv.models;
    }
  }

  /** The days of a list, as a set. */
  function DateSet(s: seq<Date>): (r: set<Date>)
    ensures forall x :: x in r <==> x in s
  {
    set d | d in s
  }

  /** Only the empty list has no days. */
  lemma {:induction false} DateSetEmpty(s: seq<Date>)
    ensures |DateSet(s)| == 0 ==> s == []
  {
    if |s| > 0 {
      assert s[0] in DateSet(s);
    }
  }

  /** The walk so far: the lines written plus the increments of the days still to walk
      make up the increments of all the days. */
  predicate WalkedSoFar(all: seq<Date>, done: nat, inc: int, lines: seq<Line>) {
    done <= |all| && inc >= 1 && lines + Increments(all[done..], inc - 1) == Increments(all, 0)
  }

  /** Days left means dates of `all` left. */
  lemma {:induction false} DaysLeft(days: map<Date, Counts>, all: seq<Date>, done: nat)
    requires done <= |all| && days.Keys == DateSet(all[done..]) && |days| != 0
    ensures done < |all|
  {
    var d :| d in days;
  }

  /** A walk with no days left has written the increments of all of them. */
  lemma {:induction false} WalkedAll(all: seq<Date>, done: nat, inc: int, lines: seq<Line>)
    requires WalkedSoFar(all, done, inc, lines) && |DateSet(all[done..])| == 0
    ensures lines == Increments(all, 0)
  {
    DateSetEmpty(all[done..]);
    assert lines + [] == lines;
  }

  /** The lines of one more increment keep `WalkedSoFar`. */
  lemma {:induction false} WalkStep(all: seq<Date>, done: nat, inc: int, lines: seq<Line>, n: nat, line: Line,
                                    done': nat, inc': int, lines': seq<Line>)
    requires done < |all| && WalkedSoFar(all, done, inc, lines) && n == Take(|all| - done)
    requires line == Increment(DisplayLabel(inc - 1).0, DisplayLabel(inc - 1).1, n, all[done], all[done + n - 1])
    requires done' == done + n && inc' == inc + 1 && lines' == lines + [line]
    ensures WalkedSoFar(all, done', inc', lines')
  {
    var rest := all[done..];
    assert rest[n..] == all[done'..];
    IncrementsUnfold(rest, inc - 1, n, inc, line);
    ConcatAssoc(lines, [line], Increments(all[done'..], inc));
    assert inc' - 1 == inc;
  }

  /** The first increment of `dates` followed by the rest. */
  lemma {:induction false} IncrementsUnfold(dates: seq<Date>, k: nat, n: nat, k': nat, line: Line)
    requires |dates| > 0 && n == Take(|dates|) && k' == k + 1
    requires line == Increment(DisplayLabel(k).0, DisplayLabel(k).1, n, dates[0], dates[n - 1])
    ensures Increments(dates, k) == [line] + Increments(dates[n..], k')
  {
  }

  /** Each date before the next: the same as `AscendingDates`, stated one step at a time
      so that the walk's loop does not compare every pair of its dates. */
  predicate Ascends(s: seq<Date>)
    decreases |s|
  {
    |s| < 2 || (Before(s[0], s[1]) && Ascends(s[1..]))
  }

  lemma {:induction false} AscendsAscending(s: seq<Date>)
    requires Ascends(s)
    ensures AscendingDates(s)
    decreases |s|
  {
    if |s| >= 2 {
      AscendsAscending(s[1..]);
      forall i, j | 0 <= i < j < |s| ensures Before(s[i], s[j]) {
        if i > 0 {
          assert s[i] == s[1..][i - 1] && s[j] == s[1..][j - 1];
        } else if j > 1 {
          assert s[1] == s[1..][0] && s[j] == s[1..][j - 1];
        }
      }
    }
  }

  lemma {:induction false} AscendingAscends(s: seq<Date>)
    requires AscendingDates(s)
    ensures Ascends(s)
    decreases |s|
  {
    if |s| >= 2 {
      assert AscendingDates(s[1..]) by {
        forall i, j | 0 <= i < j < |s| - 1 ensures Before(s[1..][i], s[1..][j]) {
          assert s[1..][i] == s[i + 1] && s[1..][j] == s[j + 1];
        }
      }
      AscendingAscends(s[1..]);
    }
  }

  /** The tail of an ascending sequence of dates from `done` on. */
  lemma {:induction false} AscendingTail(all: seq<Date>, done: nat)
    requires done <= |all| && AscendingDates(all)
    ensures AscendingDates(all[done..])
  {
    forall i, j | 0 <= i < j < |all| - done ensures Before(all[done..][i], all[done..][j]) {
      assert all[done..][i] == all[done + i] && all[done..][j] == all[done + j];
    }
  }

  /** Taking the next `n` dates of an ascending `all` out of the set of those from `done`
      on leaves the set of those from `done + n` on. */
  lemma {:induction false} DropAscending(all: seq<Date>, done: nat, n: nat)
    requires done + n <= |all| && AscendingDates(all)
    ensures DateSet(all[done..]) - DateSet(all[done..done + n]) == DateSet(all[done + n..])
  {
    forall j | done + n <= j < |all| ensures all[j] !in all[done..done + n] {
      forall i | done <= i < done + n ensures all[i] != all[j] {
        assert Before(all[i], all[j]);
      }
    }
    assert all[done..] == all[done..done + n] + all[done + n..];
  }

  /** Deleting the next `n` dates of an ascending `all` from the days left leaves the
      dates from `done + n` on, and fewer days. */
  lemma {:induction false} DropDays(days: map<Date, Counts>, all: seq<Date>, done: nat, n: nat)
    requires Ascends(all) && 0 < n && done + n <= |all| && days.Keys == DateSet(all[done..])
    ensures (days - DateSet(all[done..done + n])).Keys == DateSet(all[done + n..])
    ensures |days - DateSet(all[done..done + n])| < |days|
  {
    var gone := DateSet(all[done..done + n]);
    DropAscends(all, done, n);
    var rest := days - gone;
    assert rest.Keys == days.Keys - gone;
    assert all[done..done + n][0] == all[done];
    ProperSubsetSmaller(rest.Keys, days.Keys, all[done]);
  }

  lemma {:induction false} DropAscends(all: seq<Date>, done: nat, n: nat)
    requires Ascends(all) && done + n <= |all|
    ensures DateSet(all[done..]) - DateSet(all[done..done + n]) == DateSet(all[done + n..])
  {
    AscendsAscending(all);
    DropAscending(all, done, n);
  }

  lemma {:induction false} ProperSubsetSmaller(small: set<Date>, big: set<Date>, x: Date)
    requires small <= big && x in big && x !in small
    ensures |small| < |big|
  {
    var more := big - small;
    assert big == small + more && small * more == {};
    assert x in more;
  }

  /** `sorted(trino_data[model].keys())`, when the days left are the dates of an ascending
      `all` from `done` on. */
  method SortDays(days: map<Date, Counts>, ghost all: seq<Date>, ghost done: nat) returns (sorted: seq<Date>)
    requires done <= |all| && Ascends(all) && days.Keys == DateSet(all[done..])
    ensures sorted == all[done..]
  {
    AscendsAscending(all);
    sorted := SortedDates(days.Keys);
    SortedDatesAscending(days.Keys);
    AscendingTail(all, done);
    AscendingDatesUnique(sorted, all[done..]);
  }

  /** The next increment's days: sort the days left (the dates of `all` from `done` on),
      take the first 91 of them or all that are left, delete those from the days. */
  method NextIncrement(days: map<Date, Counts>, ghost all: seq<Date>, ghost done: nat)
    returns (rest: map<Date, Counts>, n: nat, first: Date, last: Date)
    requires Ascends(all) && done <= |all| && days.Keys == DateSet(all[done..]) && |days| != 0
    ensures done < |all| && n == Take(|all| - done)
    ensures first == all[done] && last == all[done + n - 1]
    ensures rest.Keys == DateSet(all[done + n..]) && |rest| < |days|
  {
    DaysLeft(days, all, done);
    var sorted := SortDays(days, all, done);
    n := if DaysPerIncrement < |sorted| then DaysPerIncrement else |sorted|;
    first := sorted[0];
    last := sorted[n - 1];
    assert sorted[..n] == all[done..done + n];
    DropDays(days, all, done, n);
    rest := days - DateSet(sorted[..n]);
  }

  /** The year and quarter counters of increment `inc` (from 1): the quarter runs 1 to 4
      and the year moves on at each first quarter. */
  method NextLabel(inc: int, year: int) returns (year': int, quarter: int)
    requires inc >= 1 && year == YearCounter(inc)
    ensures (year', quarter) == DisplayLabel(inc - 1) && year' == YearCounter(inc + 1)
  {
    CounterLabels(inc, year);
    year' := year;
    quarter := inc % 4;
    if quarter == 0 {
      quarter := 4;
    } else if quarter == 1 {
      year' := year + 1;
    }
  }

  /** The state of the walk over one model's days: the days left are the dates of `all`
      from `done` on, the year counter goes with the increment counter, and the lines
      written so far are the increments of the dates before `done`. */
  ghost predicate WalkState(all: seq<Date>, days: map<Date, Counts>, done: nat, inc: int, year: int,
                            lines: seq<Line>)
  {
    WalkedSoFar(all, done, inc, lines) && Ascends(all) && days.Keys == DateSet(all[done..])
    && year == YearCounter(inc)
  }

  /** One pass of the loop body of the walk: the next increment's days, labelled with the
      year and quarter counters, are written and deleted. */
  method WalkPass(days: map<Date, Counts>, inc: int, year: int, lines: seq<Line>,
                  ghost all: seq<Date>, ghost done: nat)
    returns (days': map<Date, Counts>, inc': int, year': int, lines': seq<Line>, ghost done': nat)
    requires WalkState(all, days, done, inc, year, lines) && |days| != 0
    ensures WalkState(all, days', done', inc', year', lines') && |days'| < |days|
    ensures done < done' <= |all| && done' == done + Take(|all| - done) && inc' == inc + 1
    ensures lines' == lines + [Increment(DisplayLabel(inc - 1).0, DisplayLabel(inc - 1).1,
                                         done' - done, all[done], all[done' - 1])]
  {
    var n, first, last, quarter;
    days', n, first, last := NextIncrement(days, all, done);
    year', quarter := NextLabel(inc, year);
    var line := Increment(year', quarter, n, first, last);
    lines' := lines + [line];
    inc' := inc + 1;
    done' := done + n;
    WalkStep(all, done, inc, lines, n, line, done', inc', lines');
  }

  /** The walk over the days of one model (`while trino_data[model]: ...`), one increment
      per pass, until none are left; `all` is the days in ascending order. */
  method WalkDays(days0: map<Date, Counts>, ghost all: seq<Date>) returns (lines: seq<Line>)
    requires Ascends(all) && days0.Keys == DateSet(all)
    ensures lines == Increments(all, 0)
  {
    ghost var done: nat := 0;
    var days := days0;
    var inc := 1;
    var year := 0;
    lines := [];
    assert all[0..] == all;
    while |days| != 0
      invariant WalkState(all, days, done, inc, year, lines)
      decreases |days|
    {
      days, inc, year, lines, done := WalkPass(days, inc, year, lines, all, done);
    }
    WalkedAll(all, done, inc, lines);
  }

  /** The walk over one model: the increments of its days in ascending order. */
  method WalkModel(days: map<Date, Counts>) returns (lines: seq<Line>)
    ensures lines == Increments(SortedDates(days.Keys), 0)
  {
    ghost var all := SortedDates(days.Keys);
    SortedDatesAscending(days.Keys);
    AscendingAscends(all);
    lines := WalkDays(days, all);
  }

  /** The walk so far: the models before `i` that qualify are emptied; every other model
      is as it was. */
  ghost predicate DrainedSoFar(start: map<string, map<Date, Counts>>, now: map<string, map<Date, Counts>>,
                               models: seq<string>, i: nat,
                               searches: (string, string) -> bool, patterns: seq<string>)
  {
    i <= |models| && now.Keys == start.Keys
    && forall m :: m in start ==>
         now[m] == if m in models[..i] && Walked(m, start[m], searches, patterns) then map[] else start[m]
  }

  /** Before the walk nothing is drained and nothing is reported. */
  lemma {:induction false} DrainStart(start: map<string, map<Date, Counts>>, models: seq<string>,
                   searches: (string, string) -> bool, patterns: seq<string>)
    ensures DrainedSoFar(start, start, models, 0, searches, patterns)
    ensures Report(start, models[..0], searches, patterns) == []
  {
    assert models[..0] == [];
  }

  /** After every model the days are `Drained` and the report is `Report`. */
  lemma {:induction false} DrainEnd(start: map<string, map<Date, Counts>>, now: map<string, map<Date, Counts>>,
                 models: seq<string>, searches: (string, string) -> bool, patterns: seq<string>)
    requires forall m :: m in models <==> m in start
    requires DrainedSoFar(start, now, models, |models|, searches, patterns)
    ensures now == Drained(start, searches, patterns)
    ensures Report(start, models[..|models|], searches, patterns) == Report(start, models, searches, patterns)
  {
    assert models[..|models|] == models;
  }

  /** In a list without repeats no name occurs before its own place. */
  lemma {:induction false} DistinctPrefix(models: seq<string>, i: nat)
    requires Distinct(models) && i < |models|
    ensures models[i] !in models[..i]
  {
  }

  /** Model `i` is reached untouched; when the pass over it empties it exactly if it
      qualifies, the walk has drained one more model. */
  lemma {:induction false} DrainStep(start: map<string, map<Date, Counts>>, now: map<string, map<Date, Counts>>,
                  after: map<string, map<Date, Counts>>, models: seq<string>, i: nat,
                  searches: (string, string) -> bool, patterns: seq<string>)
    requires i < |models| && models[i] in start && models[i] !in models[..i]
    requires DrainedSoFar(start, now, models, i, searches, patterns)
    requires var m := models[i]; Walked(m, now[m], searches, patterns) ==> after == now[m := map[]]
    requires var m := models[i]; !Walked(m, now[m], searches, patterns) ==> after == now
    ensures DrainedSoFar(start, after, models, i + 1, searches, patterns)
  {
    var m := models[i];
    assert now[m] == start[m];
    forall k | k in start
      ensures after[k] == if k in models[..i + 1] && Walked(k, start[k], searches, patterns) then map[] else start[k]
    {
      assert models[..i + 1] == models[..i] + [m];
    }
  }

  /** The report over one more model is the report so far plus the lines of the pass over
      it: its lines when it qualifies, none otherwise. */
  lemma {:induction false} ReportStep(start: map<string, map<Date, Counts>>, now: map<string, map<Date, Counts>>,
                   models: seq<string>, i: nat, lines: seq<Line>,
                   searches: (string, string) -> bool, patterns: seq<string>)
    requires i < |models| && models[i] in start && models[i] !in models[..i]
    requires DrainedSoFar(start, now, models, i, searches, patterns)
    requires var m := models[i]; Walked(m, now[m], searches, patterns) ==> lines == ModelLines(m, now[m])
    requires var m := models[i]; !Walked(m, now[m], searches, patterns) ==> lines == []
    ensures Report(start, models[..i + 1], searches, patterns) == Report(start, models[..i], searches, patterns) + lines
  {
    var m := models[i];
    assert now[m] == start[m];
    assert models[..i + 1][..i] == models[..i];
  }

  /** One pass of the model loop of `_generate_human_readable_data`: a model whose name
      some pattern occurs in and whose largest deployment reaches 1000 drives is announced
      and walked, which empties its days; any other model is left as it is. */
  method VisitModel(t: TrinoData, model: string, searches: (string, string) -> bool, patterns: seq<string>)
    returns (lines: seq<Line>)
    requires model in t.byModel
    modifies t
    ensures t.models == old(t.models)
    ensures Walked(model, old(t.byModel)[model], searches, patterns) ==>
      t.byModel == old(t.byModel)[model := map[]] && lines == ModelLines(model, old(t.byModel)[model])
    ensures !Walked(model, old(t.byModel)[model], searches, patterns) ==>
      t.byModel == old(t.byModel) && lines == []
  {
    lines := [];
    var hit := ScanPatterns(searches, patterns, model);
    if hit.Some? {
      var maxDrives := GetMaxDrivesDeployed(t.byModel[model]);
      if maxDrives >= MinMaxDeployedDrives {
        var increments := WalkModel(t.byModel[model]);
        t.byModel := t.byModel[model := map[]];
        lines := [Interest(model, maxDrives)] + increments;
      }
    }
  }

  /** `_generate_human_readable_data`: each model of the dictionary, in order, is walked
      when some pattern occurs in its name and its largest deployment reaches 1000 drives;
      the data it returns is always empty. */
  method GenerateHumanReadableData(t: TrinoData, searches: (string, string) -> bool, patterns: seq<string>)
    returns (r: map<string, seq<map<string, int>>>, report: seq<Line>)
    requires OrderedKeys(TrinoCsv(t.byModel, t.models))
    modifies t
    ensures r == map[]
    ensures t.models == old(t.models)
    ensures t.byModel == Drained(old(t.byModel), searches, patterns)
    ensures report == Report(old(t.byModel), old(t.models), searches, patterns)
  {
    r := map[];
    report := [];
    ghost var start := t.byModel;
    DrainStart(start, t.models, searches, patterns);
    for i := 0 to |t.models|
      invariant t.models == old(t.models)
      invariant DrainedSoFar(start, t.byModel, t.models, i, searches, patterns)
      invariant report == Report(start, t.models[..i], searches, patterns)
    {
      ghost var before := t.byModel;
      DistinctPrefix(t.models, i);
      var lines := VisitModel(t, t.models[i], searches, patterns);
      DrainStep(start, before, t.byModel, t.models, i, searches, patterns);
      ReportStep(start, before, t.models, i, lines, searches, patterns);
      report := report + lines;
    }
    DrainEnd(start, t.byModel, t.models, searches, patterns);
  }
}
