/** afr_parquet_to_csv.py: per drive model and day, the number of drive-days and the sum of
    the failure flags, from the first batch of the Parquet file only, written as CSV lines
    sorted by model and then by day. */
module ParquetCsv {
  import opened Order
  import opened Tallies

  /** One row of the Parquet file's `model`, `date` and `failure` columns, the date as the
      ISO text (`row.date.isoformat()`) the counters are keyed by. */
  datatype FailureRow = FailureRow(model: string, day: string, failure: int)

  /** `parquet_data` after the rows: each row adds 1 to the `drive_count` of its model and day
      and its failure value to the `failure_count`, both created at 0. */
  function Tally(rows: seq<FailureRow>): map<string, map<string, Counts>>
    decreases |rows|
  {
    if |rows| == 0 then map[]
    else
      var r := rows[|rows| - 1];
      AddAt(Tally(rows[..|rows| - 1]), r.model, r.day, Counts(1, r.failure))
  }

  /** The rows of the first batch, or none when the file has no batch: the loop over the
      batches ends with `break` after its first iteration. */
  function FirstBatch(batches: seq<seq<FailureRow>>): seq<FailureRow> {
    if |batches| == 0 then [] else batches[0]
  }

  /** The counting loops of `_main`. */
  method Aggregate(batches: seq<seq<FailureRow>>) returns (data: map<string, map<string, Counts>>)
    ensures data == Tally(FirstBatch(batches))
  {
    data := map[];
    for b := 0 to |batches|
      invariant b == 0 && data == map[]
    {
      var batch := batches[b];
      for i := 0 to |batch|
        invariant data == Tally(batch[..i])
      {
        var row := batch[i];
        data := AddAt(data, row.model, row.day, Counts(1, row.failure));
        assert batch[..i + 1][..i] == batch[..i];
      }
      assert batch[..|batch|] == batch;
      break;
    }
  }

  // ---------------------------------------------------------------------------------------
  // what each entry counts

  /** The number of rows of a model and day. */
  function DaysAt(rows: seq<FailureRow>, model: string, day: string): nat
    decreases |rows|
  {
    if |rows| == 0 then 0
    else
      var r := rows[|rows| - 1];
      DaysAt(rows[..|rows| - 1], model, day) + (if r.model == model && r.day == day then 1 else 0)
  }

  /** The sum of the failure values of the rows of a model and day. */
  function FailureSumAt(rows: seq<FailureRow>, model: string, day: string): int
    decreases |rows|
  {
    if |rows| == 0 then 0
    else
      var r := rows[|rows| - 1];
      FailureSumAt(rows[..|rows| - 1], model, day) + (if r.model == model && r.day == day then r.failure else 0)
  }

  /** Each entry holds its rows' count and failure sum, and exists exactly when the model
      has a row on that day. */
  lemma {:induction false} TallyCell(rows: seq<FailureRow>, model: string, day: string)
    ensures CellOr(Tally(rows), model, day) == Counts(DaysAt(rows, model, day), FailureSumAt(rows, model, day))
    ensures (model in Tally(rows) && day in Tally(rows)[model]) <==> DaysAt(rows, model, day) > 0
    decreases |rows|
  {
    if |rows| > 0 {
      var init := rows[..|rows| - 1];
      var r := rows[|rows| - 1];
      TallyCell(init, model, day);
      AddAtCell(Tally(init), r.model, r.day, Counts(1, r.failure), model, day, r.model == model && r.day == day);
    }
  }

  /** Failure flags of 0 and 1 sum to at most the number of rows. */
  lemma {:induction false} FailuresWithinDays(rows: seq<FailureRow>, model: string, day: string)
    requires forall i :: 0 <= i < |rows| ==> 0 <= rows[i].failure <= 1
    ensures 0 <= FailureSumAt(rows, model, day) <= DaysAt(rows, model, day)
    decreases |rows|
  {
    if |rows| > 0 {
      FailuresWithinDays(rows[..|rows| - 1], model, day);
    }
  }

  /** With 0/1 failure flags no entry counts more failures than drive-days. */
  lemma {:induction false} FailureCountBound(rows: seq<FailureRow>, model: string, day: string)
    requires forall i :: 0 <= i < |rows| ==> 0 <= rows[i].failure <= 1
    requires model in Tally(rows) && day in Tally(rows)[model]
    ensures 0 <= Tally(rows)[model][day].failures <= Tally(rows)[model][day].drives
  {
    TallyCell(rows, model, day);
    FailuresWithinDays(rows, model, day);
  }

  // ---------------------------------------------------------------------------------------
  // the CSV lines

  /** One written line: `model`, `date`, `drive_count`, `failure_count`. */
  datatype CsvLine = CsvLine(model: string, day: string, driveCount: int, failureCount: int)

  /** The lines of one model, for its days in the order given. */
  function LinesOf(model: string, inner: map<string, Counts>, days: seq<string>): (r: seq<CsvLine>)
    requires forall d :: d in days ==> d in inner
    ensures |r| == |days|
    ensures forall j :: 0 <= j < |r| ==>
      r[j] == CsvLine(model, days[j], inner[days[j]].drives, inner[days[j]].failures)
    decreases |days|
  {
    if |days| == 0 then []
    else
      var d := days[|days| - 1];
      LinesOf(model, inner, days[..|days| - 1]) + [CsvLine(model, d, inner[d].drives, inner[d].failures)]
  }

  /** The lines of the models given, in that order, each with its days in sorted order. */
  function LinesFor(data: map<string, map<string, Counts>>, models: seq<string>): seq<CsvLine>
    requires forall m :: m in models ==> m in data
    decreases |models|
  {
    if |models| == 0 then []
    else
      var m := models[|models| - 1];
      LinesFor(data, models[..|models| - 1]) + LinesOf(m, data[m], Sorted(data[m].Keys))
  }

  /** Everything the script writes after the header. */
  function Output(data: map<string, map<string, Counts>>): seq<CsvLine> {
    LinesFor(data, Sorted(data.Keys))
  }

  /** The writing loops of `_main`: `sorted(parquet_data)`, then each model's sorted days. */
  method WriteLines(data: map<string, map<string, Counts>>) returns (lines: seq<CsvLine>)
    ensures lines == Output(data)
  {
    var models := Sorted(data.Keys);
    lines := [];
    for k := 0 to |models|
      invariant lines == LinesFor(data, models[..k])
    {
      var m := models[k];
      var days := Sorted(data[m].Keys);
      var block := WriteModel(m, data[m], days);
      ModelStep(data, models, k, m, days, lines, block);
      lines := lines + block;
    }
    assert models[..|models|] == models;
  }

  /** The inner loop of the writing: one model's days, in the order given. */
  method WriteModel(m: string, inner: map<string, Counts>, days: seq<string>) returns (block: seq<CsvLine>)
    requires forall d :: d in days ==> d in inner
    ensures block == LinesOf(m, inner, days)
  {
    block := [];
    for j := 0 to |days|
      invariant block == LinesOf(m, inner, days[..j])
    {
      var c := inner[days[j]];
      LineStep(m, inner, days, j, block, c);
      block := block + [CsvLine(m, days[j], c.drives, c.failures)];
    }
    assert days[..|days|] == days;
  }

  /** One more day of a model. */
  lemma {:induction false} LineStep(m: string, inner: map<string, Counts>, days: seq<string>, j: nat,
                                    block: seq<CsvLine>, c: Counts)
    requires forall d :: d in days ==> d in inner
    requires j < |days| && c == inner[days[j]] && block == LinesOf(m, inner, days[..j])
    ensures block + [CsvLine(m, days[j], c.drives, c.failures)] == LinesOf(m, inner, days[..j + 1])
  {
    assert days[..j + 1][..j] == days[..j];
  }

  /** One more model. */
  lemma {:induction false} ModelStep(data: map<string, map<string, Counts>>, models: seq<string>, k: nat, m: string,
                                     days: seq<string>, lines: seq<CsvLine>, block: seq<CsvLine>)
    requires forall x :: x in models ==> x in data
    requires k < |models| && m == models[k] && days == Sorted(data[m].Keys)
    requires lines == LinesFor(data, models[..k]) && block == LinesOf(m, data[m], days)
    ensures lines + block == LinesFor(data, models[..k + 1])
  {
    assert models[..k + 1][..k] == models[..k];
  }

  /** Model first, then day. */
  predicate LineBefore(a: CsvLine, b: CsvLine) {
    Less(a.model, b.model) || (a.model == b.model && Less(a.day, b.day))
  }

  predicate AscendingLines(ls: seq<CsvLine>) {
    forall i, j :: 0 <= i < j < |ls| ==> LineBefore(ls[i], ls[j])
  }

  /** The lines are strictly ascending by model and then by day, so no model and day is
      written twice. */
  lemma {:induction false} OutputAscending(data: map<string, map<string, Counts>>)
    ensures AscendingLines(Output(data))
  {
    SortedAscending(data.Keys);
    LinesForAscending(data, Sorted(data.Keys));
  }

  lemma {:induction false} LinesForAscending(data: map<string, map<string, Counts>>, models: seq<string>)
    requires forall m :: m in models ==> m in data
    requires Ascending(models)
    ensures AscendingLines(LinesFor(data, models))
    decreases |models|
  {
    if |models| > 0 {
      var init := models[..|models| - 1];
      var m := models[|models| - 1];
      LinesForAscending(data, init);
      LinesForModels(data, init);
      var a := LinesFor(data, init);
      var days := Sorted(data[m].Keys);
      SortedAscending(data[m].Keys);
      var b := LinesOf(m, data[m], days);
      ModelsBefore(models, init, m, a);
      AppendAscending(a, b, m);
    }
  }

  /** Lines of earlier models of an ascending list sort before the last model. */
  lemma {:induction false} ModelsBefore(models: seq<string>, init: seq<string>, m: string, a: seq<CsvLine>)
    requires Ascending(models) && |models| > 0
    requires init == models[..|models| - 1] && m == models[|models| - 1]
    requires forall i :: 0 <= i < |a| ==> a[i].model in init
    ensures forall i :: 0 <= i < |a| ==> Less(a[i].model, m)
  {
    forall i | 0 <= i < |a| ensures Less(a[i].model, m) {
      var k :| 0 <= k < |init| && init[k] == a[i].model;
      assert models[k] == a[i].model;
    }
  }

  /** Every line of `LinesFor` is of one of the models given. */
  lemma {:induction false} LinesForModels(data: map<string, map<string, Counts>>, models: seq<string>)
    requires forall m :: m in models ==> m in data
    ensures forall i :: 0 <= i < |LinesFor(data, models)| ==> LinesFor(data, models)[i].model in models
    decreases |models|
  {
    if |models| > 0 {
      var init := models[..|models| - 1];
      LinesForModels(data, init);
      assert forall x :: x in init ==> x in models;
    }
  }

  /** Two ascending runs, all of the first before all of the second, make one. */
  lemma {:induction false} AppendAscending(a: seq<CsvLine>, b: seq<CsvLine>, m: string)
    requires AscendingLines(a)
    requires forall j :: 0 <= j < |b| ==> b[j].model == m
    requires forall i, j :: 0 <= i < j < |b| ==> Less(b[i].day, b[j].day)
    requires forall i :: 0 <= i < |a| ==> Less(a[i].model, m)
    ensures AscendingLines(a + b)
  {
  }

  /** A line is written exactly when its model and day have an entry, with that entry's
      counts. */
  lemma {:induction false} OutputMembers(data: map<string, map<string, Counts>>, line: CsvLine)
    ensures line in Output(data) <==>
      line.model in data && line.day in data[line.model]
      && data[line.model][line.day] == Counts(line.driveCount, line.failureCount)
  {
    LinesForMembers(data, Sorted(data.Keys), line);
  }

  /** The entry a line states. */
  predicate Holds(data: map<string, map<string, Counts>>, line: CsvLine) {
    line.model in data && line.day in data[line.model]
    && data[line.model][line.day] == Counts(line.driveCount, line.failureCount)
  }

  lemma {:induction false} LinesForMembers(data: map<string, map<string, Counts>>, models: seq<string>, line: CsvLine)
    requires forall m :: m in models ==> m in data
    ensures line in LinesFor(data, models) <==> line.model in models && Holds(data, line)
    decreases |models|
  {
    if |models| > 0 {
      var init := models[..|models| - 1];
      var m := models[|models| - 1];
      assert forall x :: x in init ==> x in models;
      LinesForMembers(data, init, line);
      var a := LinesFor(data, init);
      var b := LinesOf(m, data[m], Sorted(data[m].Keys));
      LinesOfMembers(m, data[m], line);
      MembersJoin(data, models, init, m, a, b, line);
    }
  }

  /** The last step of `LinesForMembers`: the block of the last model joins the others. */
  lemma {:induction false} MembersJoin(data: map<string, map<string, Counts>>, models: seq<string>,
                                       init: seq<string>, m: string, a: seq<CsvLine>, b: seq<CsvLine>, line: CsvLine)
    requires |models| > 0 && init == models[..|models| - 1] && m == models[|models| - 1]
    requires forall x :: x in models ==> x in data
    requires a == LinesFor(data, init) && b == LinesOf(m, data[m], Sorted(data[m].Keys))
    requires line in a <==> line.model in init && Holds(data, line)
    requires line in b <==> line.model == m && Holds(data, line)
    ensures line in LinesFor(data, models) <==> line.model in models && Holds(data, line)
  {
    assert LinesFor(data, models) == a + b;
    assert models == init + [m];
    assert line.model in models <==> line.model in init || line.model == m;
  }

  /** A model's block holds the lines of its entries. */
  lemma {:induction false} LinesOfMembers(m: string, inner: map<string, Counts>, line: CsvLine)
    ensures line in LinesOf(m, inner, Sorted(inner.Keys)) <==>
      line.model == m && line.day in inner && inner[line.day] == Counts(line.driveCount, line.failureCount)
  {
    var days := Sorted(inner.Keys);
    var b := LinesOf(m, inner, days);
    if line in b {
      var j :| 0 <= j < |b| && b[j] == line;
    }
    if line.model == m && line.day in inner && inner[line.day] == Counts(line.driveCount, line.failureCount) {
      var j :| 0 <= j < |days| && days[j] == line.day;
      assert b[j] == line;
    }
  }
}
