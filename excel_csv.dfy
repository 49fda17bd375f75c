/** convert_afr_csv_to_excel_csv.py: the AFR CSV Trino writes (one row per day index and
    drive model) pivoted into one row per day index and one column per drive model, the
    layout a spreadsheet charts directly. */
module ExcelCsv {
  import opened Wrappers
  import opened Order
  import opened Numerals

  /** A row as `csv.DictReader` gives it: column name to text. */
  type CsvDict = map<string, string>

  const DayKey: string := "day_index"
  const ModelKey: string := "drive_model"
  const AfrKey: string := "annualized_failure_rate_percent"

  /** What one input row contributes: its day index, drive model and AFR. */
  datatype AfrRecord = AfrRecord(day: int, model: string, afr: real)

  // ---------------------------------------------------------------------------------------
  // reading

  /** The three reads of a row in the order the loop body runs them: `int(row['day_index'])`,
      `row['drive_model']`, then `float(row['annualized_failure_rate_percent'])`. A missing
      column raises KeyError and unparsable text ValueError; `toFloat` is Python's `float()`
      on text. */
  function ParseRow(row: CsvDict, toFloat: string -> Result<real, PyError>): Result<AfrRecord, PyError> {
    if DayKey !in row then Err(KeyError(DayKey))
    else match ParseInt(row[DayKey])
      case Err(e) => Err(e)
      case Ok(day) =>
        if ModelKey !in row then Err(KeyError(ModelKey))
        else if AfrKey !in row then Err(KeyError(AfrKey))
        else match toFloat(row[AfrKey])
          case Err(e) => Err(e)
          case Ok(afr) => Ok(AfrRecord(day, row[ModelKey], afr))
  }

  /** The row Trino writes for a record, its AFR written as `text`. */
  function RowOf(rec: AfrRecord, text: string): CsvDict {
    map[DayKey := IntText(rec.day), ModelKey := rec.model, AfrKey := text]
  }

  /** Reading a written row gives the record back. */
  lemma {:induction false} ParseRowOf(rec: AfrRecord, text: string, toFloat: string -> Result<real, PyError>)
    requires toFloat(text) == Ok(rec.afr)
    ensures ParseRow(RowOf(rec, text), toFloat) == Ok(rec)
  {
    var row := RowOf(rec, text);
    assert DayKey in row && ModelKey in row && AfrKey in row;
    assert row[DayKey] == IntText(rec.day) && row[ModelKey] == rec.model && row[AfrKey] == text;
    ParseIntText(rec.day);
  }

  /** The rows read in order; the first row that raises ends the script with its error. */
  function ParseAll(rows: seq<CsvDict>, toFloat: string -> Result<real, PyError>): Result<seq<AfrRecord>, PyError>
    decreases |rows|
  {
    if |rows| == 0 then Ok([])
    else match ParseAll(rows[..|rows| - 1], toFloat)
      case Err(e) => Err(e)
      case Ok(recs) =>
        match ParseRow(rows[|rows| - 1], toFloat)
          case Err(e) => Err(e)
          case Ok(rec) => Ok(recs + [rec])
  }

  /** When every row reads, the records are the rows', one for one. */
  lemma {:induction false} ParseAllOk(rows: seq<CsvDict>, toFloat: string -> Result<real, PyError>)
    requires ParseAll(rows, toFloat).Ok?
    ensures |ParseAll(rows, toFloat).value| == |rows|
    ensures forall i :: 0 <= i < |rows| ==> ParseRow(rows[i], toFloat) == Ok(ParseAll(rows, toFloat).value[i])
    decreases |rows|
  {
    if |rows| > 0 {
      ParseAllOk(rows[..|rows| - 1], toFloat);
    }
  }

  /** Row `i` is the first that does not read, and raises `e`. */
  predicate FirstFailure(rows: seq<CsvDict>, toFloat: string -> Result<real, PyError>, i: int, e: PyError) {
    0 <= i < |rows| && ParseRow(rows[i], toFloat) == Err(e)
    && forall j :: 0 <= j < i ==> ParseRow(rows[j], toFloat).Ok?
  }

  /** Reading fails exactly with the error of the first row that does not read. */
  lemma {:induction false} ParseAllErr(rows: seq<CsvDict>, toFloat: string -> Result<real, PyError>, e: PyError)
    ensures ParseAll(rows, toFloat) == Err(e) <==> exists i :: FirstFailure(rows, toFloat, i, e)
    decreases |rows|
  {
    if |rows| > 0 {
      var init := rows[..|rows| - 1];
      ParseAllErr(init, toFloat, e);
      match ParseAll(init, toFloat)
      case Ok(recs) =>
        ParseAllOk(init, toFloat);
        assert forall i :: 0 <= i < |rows| - 1 ==> rows[i] == init[i];
        FailureAtLast(rows, toFloat, e);
      case Err(e0) =>
        ParseAllErr(init, toFloat, e0);
        var i0 :| FirstFailure(init, toFloat, i0, e0);
        FailurePrefix(rows, toFloat, i0, e0);
        if exists i :: FirstFailure(rows, toFloat, i, e) {
          var i :| FirstFailure(rows, toFloat, i, e);
          FirstFailureUnique(rows, toFloat, i, e, i0, e0);
        }
    }
  }

  /** Rows before the last agree with the rows of the prefix. */
  lemma {:induction false} FailurePrefix(rows: seq<CsvDict>, toFloat: string -> Result<real, PyError>, i: int, e: PyError)
    requires 0 <= i < |rows| - 1
    ensures FirstFailure(rows, toFloat, i, e) <==> FirstFailure(rows[..|rows| - 1], toFloat, i, e)
  {
    var init := rows[..|rows| - 1];
    assert forall j :: 0 <= j <= i ==> init[j] == rows[j];
  }

  /** When the prefix reads, the first failure can only be the last row. */
  lemma {:induction false} FailureAtLast(rows: seq<CsvDict>, toFloat: string -> Result<real, PyError>, e: PyError)
    requires |rows| > 0
    requires forall i :: 0 <= i < |rows| - 1 ==> ParseRow(rows[i], toFloat).Ok?
    ensures (exists i :: FirstFailure(rows, toFloat, i, e)) <==> ParseRow(rows[|rows| - 1], toFloat) == Err(e)
  {
    if ParseRow(rows[|rows| - 1], toFloat) == Err(e) {
      assert FirstFailure(rows, toFloat, |rows| - 1, e);
    }
  }

  /** There is one first failure. */
  lemma {:induction false} FirstFailureUnique(rows: seq<CsvDict>, toFloat: string -> Result<real, PyError>,
                                              i: int, e: PyError, i0: int, e0: PyError)
    requires FirstFailure(rows, toFloat, i, e) && FirstFailure(rows, toFloat, i0, e0)
    ensures i == i0 && e == e0
  {
  }

  // ---------------------------------------------------------------------------------------
  // the pivot

  /** `drive_model_column_names`: every drive model read. */
  function Models(recs: seq<AfrRecord>): set<string>
    decreases |recs|
  {
    if |recs| == 0 then {} else Models(recs[..|recs| - 1]) + {recs[|recs| - 1].model}
  }

  /** `excel_data`: per day index, per drive model, the AFR; a day's dictionary is created
      by its first row, and a later row of the same day and model overwrites the value. */
  function Pivot(recs: seq<AfrRecord>): map<int, map<string, real>>
    decreases |recs|
  {
    if |recs| == 0 then map[]
    else
      var p := Pivot(recs[..|recs| - 1]);
      var r := recs[|recs| - 1];
      var inner := if r.day in p then p[r.day] else map[];
      p[r.day := inner[r.model := r.afr]]
  }

  /** The value at a day and model, if any. */
  function Lookup(p: map<int, map<string, real>>, day: int, model: string): Option<real> {
    if day in p && model in p[day] then Some(p[day][model]) else None
  }

  /** The AFR of the last record of a day and model: the reference the pivot is checked
      against. */
  function LastAfr(recs: seq<AfrRecord>, day: int, model: string): Option<real>
    decreases |recs|
  {
    if |recs| == 0 then None
    else
      var r := recs[|recs| - 1];
      if r.day == day && r.model == model then Some(r.afr) else LastAfr(recs[..|recs| - 1], day, model)
  }

  /** Record `i` is of the day and model, and no later record is. */
  predicate LastOf(recs: seq<AfrRecord>, i: int, day: int, model: string) {
    0 <= i < |recs| && recs[i].day == day && recs[i].model == model
    && forall j :: i < j < |recs| ==> !(recs[j].day == day && recs[j].model == model)
  }

  /** `LastAfr` is the AFR of the last record of that day and model... */
  lemma {:induction false} LastAfrFound(recs: seq<AfrRecord>, day: int, model: string)
    requires LastAfr(recs, day, model).Some?
    ensures exists i :: LastOf(recs, i, day, model) && recs[i].afr == LastAfr(recs, day, model).value
    decreases |recs|
  {
    var init := recs[..|recs| - 1];
    var r := recs[|recs| - 1];
    if r.day == day && r.model == model {
      assert LastOf(recs, |recs| - 1, day, model);
    } else {
      LastAfrFound(init, day, model);
      var i :| LastOf(init, i, day, model) && init[i].afr == LastAfr(init, day, model).value;
      assert recs[i] == init[i];
      assert LastOf(recs, i, day, model);
    }
  }

  /** ... and there is none when no record has that day and model. */
  lemma {:induction false} LastAfrOf(recs: seq<AfrRecord>, i: int, day: int, model: string)
    requires LastOf(recs, i, day, model)
    ensures LastAfr(recs, day, model) == Some(recs[i].afr)
    decreases |recs|
  {
    if i < |recs| - 1 {
      var init := recs[..|recs| - 1];
      assert init[i] == recs[i];
      assert LastOf(init, i, day, model);
      LastAfrOf(init, i, day, model);
    }
  }

  /** A record of the day and model has a last one. */
  lemma {:induction false} LastExists(recs: seq<AfrRecord>, k: int, day: int, model: string)
    requires 0 <= k < |recs| && recs[k].day == day && recs[k].model == model
    ensures exists i :: LastOf(recs, i, day, model)
    decreases |recs| - k
  {
    if !LastOf(recs, k, day, model) {
      var j :| k < j < |recs| && recs[j].day == day && recs[j].model == model;
      LastExists(recs, j, day, model);
    }
  }

  /** `LastAfr` is the AFR of a record of that day and model with none after it, and none at
      all when no record has that day and model. */
  lemma {:induction false} LastAfrIsLast(recs: seq<AfrRecord>, day: int, model: string)
    ensures forall i :: LastOf(recs, i, day, model) ==> LastAfr(recs, day, model) == Some(recs[i].afr)
    ensures LastAfr(recs, day, model) == None <==>
      forall k :: 0 <= k < |recs| ==> !(recs[k].day == day && recs[k].model == model)
  {
    forall i | LastOf(recs, i, day, model) ensures LastAfr(recs, day, model) == Some(recs[i].afr) {
      LastAfrOf(recs, i, day, model);
    }
    if LastAfr(recs, day, model).Some? {
      LastAfrFound(recs, day, model);
    }
    if exists k :: 0 <= k < |recs| && recs[k].day == day && recs[k].model == model {
      var k :| 0 <= k < |recs| && recs[k].day == day && recs[k].model == model;
      LastExists(recs, k, day, model);
      var i :| LastOf(recs, i, day, model);
      LastAfrOf(recs, i, day, model);
    }
  }

  /** Each cell of the pivot holds the AFR of the last row of its day and model, and exists
      exactly when there is such a row. */
  lemma {:induction false} PivotCell(recs: seq<AfrRecord>, day: int, model: string)
    ensures Lookup(Pivot(recs), day, model) == LastAfr(recs, day, model)
    decreases |recs|
  {
    if |recs| > 0 {
      PivotCell(recs[..|recs| - 1], day, model);
    }
  }

  /** A model is a column exactly when some row names it. */
  lemma {:induction false} ModelsRead(recs: seq<AfrRecord>, model: string)
    ensures model in Models(recs) <==> exists i :: 0 <= i < |recs| && recs[i].model == model
    decreases |recs|
  {
    if |recs| > 0 {
      var init := recs[..|recs| - 1];
      ModelsRead(init, model);
      if model in Models(init) {
        var i :| 0 <= i < |init| && init[i].model == model;
        assert recs[i] == init[i];
      }
      if exists i :: 0 <= i < |recs| - 1 && recs[i].model == model {
        var i :| 0 <= i < |recs| - 1 && recs[i].model == model;
        assert init[i] == recs[i];
      }
    }
  }

  /** Every model with an AFR on some day is among the columns, and every day present has
      at least one model. */
  lemma {:induction false} PivotColumns(recs: seq<AfrRecord>)
    ensures forall d :: d in Pivot(recs) ==> |Pivot(recs)[d]| > 0 && Pivot(recs)[d].Keys <= Models(recs)
    decreases |recs|
  {
    if |recs| > 0 {
      PivotColumns(recs[..|recs| - 1]);
    }
  }

  // ---------------------------------------------------------------------------------------
  // `_convert_afr_csv_to_excel`

  /** The sorted column names and the pivot. */
  datatype Converted = Converted(columns: seq<string>, data: map<int, map<string, real>>)

  function Convert(rows: seq<CsvDict>, toFloat: string -> Result<real, PyError>): Result<Converted, PyError> {
    match ParseAll(rows, toFloat)
      case Err(e) => Err(e)
      case Ok(recs) => Ok(Converted(Sorted(Models(recs)), Pivot(recs)))
  }

  /** The reading loop. */
  method ConvertAfrCsv(rows: seq<CsvDict>, toFloat: string -> Result<real, PyError>) returns (r: Result<Converted, PyError>)
    ensures r == Convert(rows, toFloat)
  {
    var names: set<string> := {};
    var data: map<int, map<string, real>> := map[];
    ghost var recs: seq<AfrRecord> := [];
    for i := 0 to |rows|
      invariant ParseAll(rows[..i], toFloat) == Ok(recs)
      invariant names == Models(recs) && data == Pivot(recs)
    {
      var parsed := ParseRow(rows[i], toFloat);
      if parsed.Err? {
        ReadStops(rows, i, toFloat, recs, parsed.error);
        return Err(parsed.error);
      }
      var rec := parsed.value;
      names := names + {rec.model};
      var inner := if rec.day in data then data[rec.day] else map[];
      data := data[rec.day := inner[rec.model := rec.afr]];
      ReadStep(rows, i, toFloat, recs, rec);
      recs := recs + [rec];
    }
    assert rows[..|rows|] == rows;
    r := Ok(Converted(Sorted(names), data));
  }

  /** One more row read. */
  lemma {:induction false} ReadStep(rows: seq<CsvDict>, i: nat, toFloat: string -> Result<real, PyError>,
                                    recs: seq<AfrRecord>, rec: AfrRecord)
    requires i < |rows| && ParseAll(rows[..i], toFloat) == Ok(recs) && ParseRow(rows[i], toFloat) == Ok(rec)
    ensures ParseAll(rows[..i + 1], toFloat) == Ok(recs + [rec])
    ensures (recs + [rec])[..|recs|] == recs
  {
    assert rows[..i + 1][..i] == rows[..i];
  }

  /** A row that raises ends the reading with its error. */
  lemma {:induction false} ReadStops(rows: seq<CsvDict>, i: nat, toFloat: string -> Result<real, PyError>,
                                     recs: seq<AfrRecord>, e: PyError)
    requires i < |rows| && ParseAll(rows[..i], toFloat) == Ok(recs) && ParseRow(rows[i], toFloat) == Err(e)
    ensures Convert(rows, toFloat) == Err(e)
  {
    assert rows[..i + 1][..i] == rows[..i];
    ErrPersists(rows, i + 1, toFloat, e);
  }

  /** Once a prefix fails, so does every longer one, with the same error. */
  lemma {:induction false} ErrPersists(rows: seq<CsvDict>, k: nat, toFloat: string -> Result<real, PyError>, e: PyError)
    requires k <= |rows| && ParseAll(rows[..k], toFloat) == Err(e)
    ensures ParseAll(rows, toFloat) == Err(e)
    decreases |rows| - k
  {
    if k < |rows| {
      assert rows[..k + 1][..k] == rows[..k];
      ErrPersists(rows, k + 1, toFloat, e);
    } else {
      assert rows[..k] == rows;
    }
  }

  // ---------------------------------------------------------------------------------------
  // `_create_excel_csv`

  /** A value in a written row: the day index, or an AFR. */
  datatype Cell = DayCell(day: int) | AfrCell(afr: real)

  /** `['day_index'] + drive_model_column_names`. */
  function Header(columns: seq<string>): seq<string> {
    [DayKey] + columns
  }

  /** `data_row` for one day: `day_index`, then, for each column in turn, the AFR of its model
      when the day has one. */
  function RowDict(day: int, columns: seq<string>, afrs: map<string, real>): map<string, Cell>
    decreases |columns|
  {
    if |columns| == 0 then map[DayKey := DayCell(day)]
    else
      var m := columns[|columns| - 1];
      var row := RowDict(day, columns[..|columns| - 1], afrs);
      if m in afrs then row[m := AfrCell(afrs[m])] else row
  }

  /** `csv.DictWriter.writerow` with its defaults: a key that is not a field name raises
      ValueError; a field name the row lacks is written empty (`None` here). */
  function WriteRow(fieldnames: seq<string>, row: map<string, Cell>): Result<seq<Option<Cell>>, PyError> {
    if forall k :: k in row ==> k in fieldnames then
      Ok(seq(|fieldnames|, j requires 0 <= j < |fieldnames| =>
        if fieldnames[j] in row then Some(row[fieldnames[j]]) else None))
    else Err(ValueError("dict contains fields not in fieldnames"))
  }

  /** The rows written for the days given, in that order; the first row that raises ends the
      writing. */
  function RowsFor(columns: seq<string>, data: map<int, map<string, real>>, days: seq<int>)
    : Result<seq<seq<Option<Cell>>>, PyError>
    requires forall d :: d in days ==> d in data
    decreases |days|
  {
    if |days| == 0 then Ok([])
    else match RowsFor(columns, data, days[..|days| - 1])
      case Err(e) => Err(e)
      case Ok(rows) =>
        var d := days[|days| - 1];
        match WriteRow(Header(columns), RowDict(d, columns, data[d]))
          case Err(e) => Err(e)
          case Ok(cells) => Ok(rows + [cells])
  }

  /** Everything written after the header: one row per day index, ascending. */
  function Table(columns: seq<string>, data: map<int, map<string, real>>): Result<seq<seq<Option<Cell>>>, PyError> {
    RowsFor(columns, data, SortedInts(data.Keys))
  }

  /** The writing loop; a row's dictionary is built by `BuildRow`. */
  method CreateExcelCsv(columns: seq<string>, data: map<int, map<string, real>>)
    returns (header: seq<string>, rows: seq<seq<Option<Cell>>>)
    ensures header == Header(columns)
    ensures Table(columns, data) == Ok(rows)
  {
    header := [DayKey] + columns;
    var days := SortedInts(data.Keys);
    rows := [];
    for i := 0 to |days|
      invariant RowsFor(columns, data, days[..i]) == Ok(rows)
    {
      var day := days[i];
      var row := BuildRow(day, columns, data[day]);
      var cells := WriteRow(header, row);
      WriteStep(columns, data, days, i, rows, cells);
      rows := rows + [cells.value];
    }
    assert days[..|days|] == days;
  }

  /** One more day written; its row never raises. */
  lemma {:induction false} WriteStep(columns: seq<string>, data: map<int, map<string, real>>, days: seq<int>, i: nat,
                                     rows: seq<seq<Option<Cell>>>, cells: Result<seq<Option<Cell>>, PyError>)
    requires forall d :: d in days ==> d in data
    requires i < |days| && RowsFor(columns, data, days[..i]) == Ok(rows)
    requires cells == WriteRow(Header(columns), RowDict(days[i], columns, data[days[i]]))
    ensures cells.Ok? && RowsFor(columns, data, days[..i + 1]) == Ok(rows + [cells.value])
  {
    RowWritten(days[i], columns, data[days[i]]);
    assert days[..i + 1][..i] == days[..i];
  }

  /** The inner loop: `day_index`, then each column's AFR when present. */
  method BuildRow(day: int, columns: seq<string>, afrs: map<string, real>) returns (row: map<string, Cell>)
    ensures row == RowDict(day, columns, afrs)
  {
    row := map[DayKey := DayCell(day)];
    for j := 0 to |columns|
      invariant row == RowDict(day, columns[..j], afrs)
    {
      var m := columns[j];
      if m in afrs {
        row := row[m := AfrCell(afrs[m])];
      }
      assert columns[..j + 1][..j] == columns[..j];
    }
    assert columns[..|columns|] == columns;
  }

  /** A row's keys are `day_index` and the columns whose model has an AFR that day; the
      value under `day_index` is the day unless a model is itself called `day_index`. */
  lemma {:induction false} RowDictAt(day: int, columns: seq<string>, afrs: map<string, real>, k: string)
    ensures k in RowDict(day, columns, afrs) <==> k == DayKey || (k in columns && k in afrs)
    ensures k in RowDict(day, columns, afrs) ==> Some(RowDict(day, columns, afrs)[k]) == CellAt(columns, afrs, day, k)
    decreases |columns|
  {
    if |columns| > 0 {
      var init := columns[..|columns| - 1];
      RowDictAt(day, init, afrs, k);
      assert k in columns <==> k in init || k == columns[|columns| - 1];
    }
  }

  /** The cell under field name `k` for a day with AFRs `afrs`: the model's AFR, the day
      itself under `day_index`, or nothing. */
  function CellAt(columns: seq<string>, afrs: map<string, real>, day: int, k: string): Option<Cell> {
    if k in columns && k in afrs then Some(AfrCell(afrs[k]))
    else if k == DayKey then Some(DayCell(day))
    else None
  }

  /** The row written for one day, field by field. */
  function ExpectedRow(columns: seq<string>, afrs: map<string, real>, day: int): (r: seq<Option<Cell>>)
    ensures |r| == 1 + |columns|
    ensures forall j :: 0 <= j < |r| ==> r[j] == CellAt(columns, afrs, day, Header(columns)[j])
  {
    seq(1 + |columns|, j requires 0 <= j < 1 + |columns| => CellAt(columns, afrs, day, Header(columns)[j]))
  }

  /** Every key of a row is a field name, so `writerow` never raises, and it writes each
      field's cell. */
  lemma {:induction false} RowWritten(day: int, columns: seq<string>, afrs: map<string, real>)
    ensures WriteRow(Header(columns), RowDict(day, columns, afrs)) == Ok(ExpectedRow(columns, afrs, day))
  {
    var row := RowDict(day, columns, afrs);
    var h := Header(columns);
    forall k | k in row ensures k in h {
      RowDictAt(day, columns, afrs, k);
    }
    var cells := WriteRow(h, row).value;
    assert |cells| == |h|;
    forall j | 0 <= j < |h| ensures cells[j] == ExpectedRow(columns, afrs, day)[j] {
      RowDictAt(day, columns, afrs, h[j]);
    }
    assert cells == ExpectedRow(columns, afrs, day);
  }

  /** The rows expected for the days given. */
  function ExpectedRows(columns: seq<string>, data: map<int, map<string, real>>, days: seq<int>): (r: seq<seq<Option<Cell>>>)
    requires forall i :: 0 <= i < |days| ==> days[i] in data
    ensures |r| == |days|
    ensures forall i :: 0 <= i < |days| ==> r[i] == ExpectedRow(columns, data[days[i]], days[i])
    decreases |days|
  {
    if |days| == 0 then []
    else ExpectedRows(columns, data, days[..|days| - 1]) + [ExpectedRow(columns, data[days[|days| - 1]], days[|days| - 1])]
  }

  /** Writing never raises, and writes the expected row for each day. */
  lemma {:induction false} RowsForExpected(columns: seq<string>, data: map<int, map<string, real>>, days: seq<int>)
    requires forall d :: d in days ==> d in data
    requires forall i :: 0 <= i < |days| ==> days[i] in data
    ensures RowsFor(columns, data, days) == Ok(ExpectedRows(columns, data, days))
    decreases |days|
  {
    if |days| > 0 {
      RowsForExpected(columns, data, days[..|days| - 1]);
      RowWritten(days[|days| - 1], columns, data[days[|days| - 1]]);
    }
  }

  /** `Table` is the expected rows of the days in ascending order. */
  lemma {:induction false} TableExpected(columns: seq<string>, data: map<int, map<string, real>>, days: seq<int>)
    requires days == SortedInts(data.Keys)
    ensures forall i :: 0 <= i < |days| ==> days[i] in data
    ensures Table(columns, data) == Ok(ExpectedRows(columns, data, days))
  {
    RowsForExpected(columns, data, days);
  }

  /** With no model named `day_index`, a row's first cell is its day and cell `j + 1` the AFR
      of `columns[j]`, or empty when the model has none that day. */
  lemma {:induction false} ExpectedCells(columns: seq<string>, afrs: map<string, real>, day: int)
    requires DayKey !in columns
    ensures ExpectedRow(columns, afrs, day)[0] == Some(DayCell(day))
    ensures forall j :: 0 <= j < |columns| ==>
      ExpectedRow(columns, afrs, day)[j + 1] == if columns[j] in afrs then Some(AfrCell(afrs[columns[j]])) else None
  {
    assert Header(columns)[0] == DayKey;
    assert forall j :: 0 <= j < |columns| ==> Header(columns)[j + 1] == columns[j];
  }

  /** With no model named `day_index`: one row per day index in ascending order, the first
      cell of each its day, and cell `j + 1` the AFR of `columns[j]` that day, or empty when
      the model has none. */
  lemma {:induction false} TableLayout(columns: seq<string>, data: map<int, map<string, real>>,
                                       days: seq<int>, rows: seq<seq<Option<Cell>>>)
    requires DayKey !in columns
    requires days == SortedInts(data.Keys) && Table(columns, data) == Ok(rows)
    ensures |rows| == |data| == |days| && AscendingInts(days)
    ensures forall i :: 0 <= i < |rows| ==> |rows[i]| == 1 + |columns| && rows[i][0] == Some(DayCell(days[i]))
    ensures forall i, j :: 0 <= i < |rows| && 0 <= j < |columns| ==>
      rows[i][j + 1] == if columns[j] in data[days[i]] then Some(AfrCell(data[days[i]][columns[j]])) else None
  {
    TableExpected(columns, data, days);
    forall i | 0 <= i < |rows| ensures rows[i] == ExpectedRow(columns, data[days[i]], days[i]) {
    }
    forall i | 0 <= i < |rows| {
      ExpectedCells(columns, data[days[i]], days[i]);
    }
  }
}
