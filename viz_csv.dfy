/** afr_viz_csv.py: the per-(model, quarter) sums that feed the cumulative AFR walk, and the
    header and data rows of the CSV it writes. The AFR walk itself is `AfrWalk.AllModelsAfr`;
    the name normalizer is `Normalizer.NormalizeMerged`. */
module VizCsv {
  import opened Wrappers
  import opened Order
  import opened Text
  import opened Calendar
  import opened Quarters
  import opened Tallies
  import opened AfrWalk
  import opened StatsPost

  // ---------------------------------------------------------------------------------------
  // `_get_afr_input_data`

  /** One row of the grouped query: a normalized model, a day, and the number of drives of
      that model seen and failed on that day. */
  datatype DayRow = DayRow(model: string, date: Date, drivesSeen: int, failures: int)

  predicate ValidRows(rows: seq<DayRow>) {
    forall i :: 0 <= i < |rows| ==> Valid(rows[i].date)
  }

  /** `f"{date.year} Q{month_quarter_lookup_table[date.month]}"`. */
  function RowQuarter(r: DayRow): string
    requires Valid(r.date)
  {
    QuarterLabel(r.date.year, MonthQuarterLookupTable()[r.date.month])
  }

  /** The table after the rows, in order: each adds its drives seen and failures to the cell
      of its model and quarter, created at zero. */
  function InputTable(rows: seq<DayRow>): map<string, map<string, Counts>>
    requires ValidRows(rows)
    decreases |rows|
  {
    if |rows| == 0 then map[]
    else
      var r := rows[|rows| - 1];
      AddAt(InputTable(rows[..|rows| - 1]), r.model, RowQuarter(r), Counts(r.drivesSeen, r.failures))
  }

  /** The loop over the batches' rows (the batches, concatenated, are `rows`). */
  method AfrInputData(rows: seq<DayRow>) returns (data: map<string, map<string, Counts>>)
    requires ValidRows(rows)
    ensures data == InputTable(rows)
  {
    data := map[];
    var i := 0;
    while i < |rows|
      invariant 0 <= i <= |rows|
      invariant data == InputTable(rows[..i])
    {
      data := AddRow(data, rows[i]);
      assert rows[..i + 1][..i] == rows[..i];
      i := i + 1;
    }
    assert rows[..i] == rows;
  }

  /** One row: the model's dictionary and the quarter's entry are created when missing, then
      the row's counts are added to the entry. */
  method AddRow(data: map<string, map<string, Counts>>, row: DayRow)
    returns (data': map<string, map<string, Counts>>)
    requires Valid(row.date)
    ensures data' == AddAt(data, row.model, RowQuarter(row), Counts(row.drivesSeen, row.failures))
  {
    var inner := if row.model in data then data[row.model] else map[];
    var quarter := QuarterLabel(row.date.year, MonthQuarterLookupTable()[row.date.month]);
    var entry := if quarter in inner then inner[quarter] else Zero;
    entry := Counts(entry.drives + row.drivesSeen, entry.failures + row.failures);
    data' := data[row.model := inner[quarter := entry]];
  }

  /** The rows of one model and quarter, in order. */
  function Matching(rows: seq<DayRow>, model: string, quarter: string): seq<DayRow>
    requires ValidRows(rows)
    decreases |rows|
  {
    if |rows| == 0 then []
    else
      var r := rows[|rows| - 1];
      Matching(rows[..|rows| - 1], model, quarter)
        + (if r.model == model && RowQuarter(r) == quarter then [r] else [])
  }

  /** The drives seen and the failures of some rows, added up. */
  function Total(rs: seq<DayRow>): Counts
    decreases |rs|
  {
    if |rs| == 0 then Zero
    else
      var t := Total(rs[..|rs| - 1]);
      Counts(t.drives + rs[|rs| - 1].drivesSeen, t.failures + rs[|rs| - 1].failures)
  }

  /** Each entry holds the sums of drives seen and of failures over the rows of its model and
      quarter, and an entry exists exactly when there is such a row. */
  lemma {:induction false} InputCell(rows: seq<DayRow>, model: string, quarter: string)
    requires ValidRows(rows)
    ensures CellOr(InputTable(rows), model, quarter) == Total(Matching(rows, model, quarter))
    ensures (model in InputTable(rows) && quarter in InputTable(rows)[model])
            <==> |Matching(rows, model, quarter)| > 0
  {
    InputCellTotal(rows, model, quarter);
    InputCellExists(rows, model, quarter);
  }

  lemma {:induction false} InputCellTotal(rows: seq<DayRow>, model: string, quarter: string)
    requires ValidRows(rows)
    ensures CellOr(InputTable(rows), model, quarter) == Total(Matching(rows, model, quarter))
    decreases |rows|
  {
    if |rows| > 0 {
      var init := rows[..|rows| - 1];
      var r := rows[|rows| - 1];
      InputCellTotal(init, model, quarter);
      var d := Counts(r.drivesSeen, r.failures);
      assert InputTable(rows) == AddAt(InputTable(init), r.model, RowQuarter(r), d);
      var t, t' := Total(Matching(init, model, quarter)), Total(Matching(rows, model, quarter));
      MatchingTotalSnoc(rows, model, quarter, r, d, t, t');
      CellStep(InputTable(init), InputTable(rows), r.model, RowQuarter(r), d, model, quarter, t, t');
    }
  }

  /** One row's step of `InputCellTotal`, on the tables alone. */
  lemma {:induction false} CellStep(before: map<string, map<string, Counts>>, after: map<string, map<string, Counts>>,
                                    k1: string, k2: string, d: Counts, model: string, quarter: string,
                                    t: Counts, t': Counts)
    requires after == AddAt(before, k1, k2, d) && CellOr(before, model, quarter) == t
    requires if k1 == model && k2 == quarter then t' == Counts(t.drives + d.drives, t.failures + d.failures)
             else t' == t
    ensures CellOr(after, model, quarter) == t'
  {
    AddAtCell(before, k1, k2, d, model, quarter, k1 == model && k2 == quarter);
  }

  lemma {:induction false} InputCellExists(rows: seq<DayRow>, model: string, quarter: string)
    requires ValidRows(rows)
    ensures (model in InputTable(rows) && quarter in InputTable(rows)[model])
            <==> |Matching(rows, model, quarter)| > 0
    decreases |rows|
  {
    if |rows| > 0 {
      var init := rows[..|rows| - 1];
      var r := rows[|rows| - 1];
      InputCellExists(init, model, quarter);
      var d := Counts(r.drivesSeen, r.failures);
      assert InputTable(rows) == AddAt(InputTable(init), r.model, RowQuarter(r), d);
      AddAtCell(InputTable(init), r.model, RowQuarter(r), d, model, quarter, r.model == model && RowQuarter(r) == quarter);
      MatchingSnoc(rows, model, quarter);
    }
  }

  /** `MatchingSnoc` for the sums alone. */
  lemma {:induction false} MatchingTotalSnoc(rows: seq<DayRow>, model: string, quarter: string,
                                             r: DayRow, d: Counts, t: Counts, t': Counts)
    requires ValidRows(rows) && |rows| > 0 && r == rows[|rows| - 1] && d == Counts(r.drivesSeen, r.failures)
    requires t == Total(Matching(rows[..|rows| - 1], model, quarter)) && t' == Total(Matching(rows, model, quarter))
    ensures if r.model == model && RowQuarter(r) == quarter then t' == Counts(t.drives + d.drives, t.failures + d.failures)
            else t' == t
  {
    MatchingSnoc(rows, model, quarter);
  }

  /** The last row adds to the sum of its own model and quarter only. */
  lemma {:induction false} MatchingSnoc(rows: seq<DayRow>, model: string, quarter: string)
    requires ValidRows(rows) && |rows| > 0
    ensures var r := rows[|rows| - 1];
      var before := Matching(rows[..|rows| - 1], model, quarter);
      var t := Total(before);
      if r.model == model && RowQuarter(r) == quarter
      then |Matching(rows, model, quarter)| > 0
           && Total(Matching(rows, model, quarter)) == Counts(t.drives + r.drivesSeen, t.failures + r.failures)
      else Matching(rows, model, quarter) == before
  {
    var r := rows[|rows| - 1];
    var before := Matching(rows[..|rows| - 1], model, quarter);
    if r.model == model && RowQuarter(r) == quarter {
      assert (before + [r])[..|before|] == before;
    }
  }

  /** The models the rows are of. */
  function RowModels(rows: seq<DayRow>): set<string> {
    set i | 0 <= i < |rows| :: rows[i].model
  }

  /** A model has a dictionary exactly when some row is of that model. */
  lemma {:induction false} InputModels(rows: seq<DayRow>)
    requires ValidRows(rows)
    ensures InputTable(rows).Keys == RowModels(rows)
    decreases |rows|
  {
    if |rows| > 0 {
      InputModels(rows[..|rows| - 1]);
      RowModelsSnoc(rows);
    }
  }

  lemma {:induction false} RowModelsSnoc(rows: seq<DayRow>)
    requires |rows| > 0
    ensures RowModels(rows) == RowModels(rows[..|rows| - 1]) + {rows[|rows| - 1].model}
  {
    var init := rows[..|rows| - 1];
    forall n | n in RowModels(rows) ensures n in RowModels(init) + {rows[|rows| - 1].model} {
      var i :| 0 <= i < |rows| && rows[i].model == n;
      if i < |init| { assert init[i] == rows[i]; }
    }
    forall n | n in RowModels(init) ensures n in RowModels(rows) {
      var i :| 0 <= i < |init| && init[i].model == n;
      assert rows[i] == init[i];
    }
  }

  // ---------------------------------------------------------------------------------------
  // `_generate_output_csv`

  /** What polars raises when `.item()` is called on the empty frame that filtering the
      deploy counts gives for a model missing from them. */
  const ItemError: PyError := ValueError("can only call `.item()` if the dataframe is of shape (1, 1), "
    + "or if explicit row/col values are provided; frame has shape (0, 1)")

  /** `f"{model} ({deployed:,})"` for each model, in order. */
  function ModelColumns(models: seq<string>, deployed: map<string, nat>): (cols: seq<string>)
    requires forall j :: 0 <= j < |models| ==> models[j] in deployed
    ensures |cols| == |models|
    ensures forall j :: 0 <= j < |models| ==> cols[j] == Label(models[j], deployed[models[j]])
  {
    seq(|models|, j requires 0 <= j < |models| => Label(models[j], deployed[models[j]]))
  }

  /** The CSV header: "Year", "Quarter", then one column per model in sorted order. */
  function Header<V>(afr: map<string, map<string, V>>, deployed: map<string, nat>): seq<string>
    requires afr.Keys <= deployed.Keys
  {
    ["Year", "Quarter"] + ModelColumns(Sorted(afr.Keys), deployed)
  }

  /** `max(max_quarters, len(...))` over the models in order, from 0. */
  function MaxLen<V>(afr: map<string, map<string, V>>, models: seq<string>): nat
    requires forall j :: 0 <= j < |models| ==> models[j] in afr
    decreases |models|
  {
    if |models| == 0 then 0
    else
      var m := MaxLen(afr, models[..|models| - 1]);
      var n := |afr[models[|models| - 1]]|;
      if m < n then n else m
  }

  /** The number of quarters of the model with the most: the number of data rows. */
  function MaxQuarters<V>(afr: map<string, map<string, V>>): nat {
    MaxLen(afr, Sorted(afr.Keys))
  }

  /** The first loop: the header's model columns and the largest quarter count. It fails at
      the first model, in sorted order, with no deploy count. */
  method HeaderAndDepth<V>(afr: map<string, map<string, V>>, deployed: map<string, nat>)
    returns (r: Result<(seq<string>, nat), PyError>)
    ensures r.Err? <==> !(afr.Keys <= deployed.Keys)
    ensures r.Err? ==> r.error == ItemError
    ensures r.Ok? ==> r.value.0 == Header(afr, deployed) && r.value.1 == MaxQuarters(afr)
  {
    var models := Sorted(afr.Keys);
    var columns := ["Year", "Quarter"];
    var maxQuarters: nat := 0;
    HeaderStart(afr, deployed, models);
    var i := 0;
    while i < |models|
      invariant HeaderSoFar(afr, deployed, models, i, columns, maxQuarters)
    {
      var model := models[i];
      if model !in deployed {
        assert model in afr;
        return Err(ItemError);
      }
      HeaderNext(afr, deployed, models, i, columns, maxQuarters);
      columns := columns + [Label(model, deployed[model])];
      maxQuarters := if maxQuarters < |afr[model]| then |afr[model]| else maxQuarters;
      i := i + 1;
    }
    HeaderEnd(afr, deployed, models, columns, maxQuarters);
    return Ok((columns, maxQuarters));
  }

  /** After `i` models of the first loop: each had a deploy count, the header holds their
      columns and the count is the largest among their quarter counts. */
  ghost predicate HeaderSoFar<V>(afr: map<string, map<string, V>>, deployed: map<string, nat>,
                                 models: seq<string>, i: int, columns: seq<string>, maxQuarters: nat)
  {
    && 0 <= i <= |models|
    && (forall j :: 0 <= j < |models| ==> models[j] in afr)
    && (forall j :: 0 <= j < i ==> models[j] in deployed)
    && columns == ["Year", "Quarter"] + ModelColumns(models[..i], deployed)
    && maxQuarters == MaxLen(afr, models[..i])
  }

  lemma {:induction false} HeaderStart<V>(afr: map<string, map<string, V>>, deployed: map<string, nat>, models: seq<string>)
    requires models == Sorted(afr.Keys)
    ensures HeaderSoFar(afr, deployed, models, 0, ["Year", "Quarter"], 0)
  {
    assert ["Year", "Quarter"] + ModelColumns(models[..0], deployed) == ["Year", "Quarter"];
  }

  lemma {:induction false} HeaderNext<V>(afr: map<string, map<string, V>>, deployed: map<string, nat>,
                                         models: seq<string>, i: int, columns: seq<string>, maxQuarters: nat)
    requires HeaderSoFar(afr, deployed, models, i, columns, maxQuarters)
    requires i < |models| && models[i] in deployed
    ensures var m := models[i];
      HeaderSoFar(afr, deployed, models, i + 1, columns + [Label(m, deployed[m])],
                  if maxQuarters < |afr[m]| then |afr[m]| else maxQuarters)
  {
    HeaderStep(afr, deployed, models, i);
  }

  lemma {:induction false} HeaderEnd<V>(afr: map<string, map<string, V>>, deployed: map<string, nat>,
                                        models: seq<string>, columns: seq<string>, maxQuarters: nat)
    requires models == Sorted(afr.Keys)
    requires HeaderSoFar(afr, deployed, models, |models|, columns, maxQuarters)
    ensures afr.Keys <= deployed.Keys
    ensures columns == Header(afr, deployed) && maxQuarters == MaxQuarters(afr)
  {
    assert models[..|models|] == models;
    AllListed(afr.Keys, deployed.Keys);
  }

  /** Every key sorted is in `b`: the keys are a subset of `b`. */
  lemma {:induction false} AllListed(a: set<string>, b: set<string>)
    requires forall j :: 0 <= j < |Sorted(a)| ==> Sorted(a)[j] in b
    ensures a <= b
  {
    forall m | m in a ensures m in b {
      var j := IndexOf(Sorted(a), m);
    }
  }

  lemma {:induction false} HeaderStep<V>(afr: map<string, map<string, V>>, deployed: map<string, nat>, models: seq<string>, i: nat)
    requires i < |models| && forall j :: 0 <= j < |models| ==> models[j] in afr
    requires forall j :: 0 <= j <= i ==> models[j] in deployed
    ensures ["Year", "Quarter"] + ModelColumns(models[..i + 1], deployed)
      == ["Year", "Quarter"] + ModelColumns(models[..i], deployed) + [Label(models[i], deployed[models[i]])]
    ensures MaxLen(afr, models[..i + 1])
      == if MaxLen(afr, models[..i]) < |afr[models[i]]| then |afr[models[i]]| else MaxLen(afr, models[..i])
  {
    assert models[..i + 1][..i] == models[..i];
    ConcatAssoc(["Year", "Quarter"], ModelColumns(models[..i], deployed), [Label(models[i], deployed[models[i]])]);
  }

  /** The values of one model in ascending quarter order: its list in `human_readable_data`. */
  function Column<V>(q: map<string, V>): (c: seq<V>)
    ensures |c| == |q.Keys|
    ensures forall j :: 0 <= j < |c| ==> Sorted(q.Keys)[j] in q && c[j] == q[Sorted(q.Keys)[j]]
  {
    var keys := Sorted(q.Keys);
    seq(|keys|, j requires 0 <= j < |keys| => q[keys[j]])
  }

  /** The inner loop of the second pass: the values appended in sorted quarter order. */
  method ModelColumn<V>(q: map<string, V>) returns (c: seq<V>)
    ensures c == Column(q)
  {
    var keys := Sorted(q.Keys);
    c := [];
    var i := 0;
    while i < |keys|
      invariant 0 <= i <= |keys| && |c| == i
      invariant forall j :: 0 <= j < i ==> c[j] == q[keys[j]]
    {
      c := c + [q[keys[i]]];
      i := i + 1;
    }
  }

  /** The second pass: one list per model. */
  method ColumnLists<V>(afr: map<string, map<string, V>>) returns (lists: map<string, seq<V>>)
    ensures lists.Keys == afr.Keys
    ensures forall m :: m in afr ==> lists[m] == Column(afr[m])
  {
    var models := Sorted(afr.Keys);
    lists := map[];
    var i := 0;
    while i < |models|
      invariant ListsSoFar(afr, models, i, lists)
    {
      lists := AddColumn(afr, models, i, lists);
      i := i + 1;
    }
    ListsEnd(afr, models, lists);
  }

  /** The lists of the first `i` models in sorted order, each its model's column. */
  ghost predicate ListsSoFar<V>(afr: map<string, map<string, V>>, models: seq<string>, i: int,
                                lists: map<string, seq<V>>)
  {
    && 0 <= i <= |models|
    && (forall j :: 0 <= j < |models| ==> models[j] in afr)
    && lists.Keys <= afr.Keys
    && (forall m :: m in lists ==> lists[m] == Column(afr[m]))
    && (forall j :: 0 <= j < i ==> models[j] in lists)
  }

  /** One model of the second pass: its list is built and stored. */
  method AddColumn<V>(afr: map<string, map<string, V>>, models: seq<string>, i: int,
                      lists: map<string, seq<V>>)
    returns (lists': map<string, seq<V>>)
    requires ListsSoFar(afr, models, i, lists) && i < |models|
    ensures ListsSoFar(afr, models, i + 1, lists')
  {
    var c := ModelColumn(afr[models[i]]);
    lists' := lists[models[i] := c];
  }

  lemma {:induction false} ListsEnd<V>(afr: map<string, map<string, V>>, models: seq<string>,
                                       lists: map<string, seq<V>>)
    requires models == Sorted(afr.Keys) && ListsSoFar(afr, models, |models|, lists)
    ensures lists.Keys == afr.Keys
    ensures forall m :: m in afr ==> lists[m] == Column(afr[m])
  {
    forall m | m in afr ensures m in lists {
      var j := IndexOf(models, m);
    }
  }

  /** A data row as `csv.DictWriter` writes it: the year and quarter counters, then one cell
      per model column, empty (`None`) when the row has no value for it. */
  datatype CsvRow<V> = CsvRow(year: nat, quarter: nat, cells: seq<Option<V>>)

  /** The `i`-th element of a list, if it has one. */
  function Nth<V>(c: seq<V>, i: nat): Option<V> {
    if i < |c| then Some(c[i]) else None
  }

  /** Model `model`'s cell in data row `i`: its `i`-th value in sorted quarter order, or
      empty once its list is exhausted. */
  function CellAt<V>(afr: map<string, map<string, V>>, model: string, i: nat): Option<V>
    requires model in afr
  {
    Nth(Column(afr[model]), i)
  }

  /** What is left of a list after `i` pops from its front. */
  function Remaining<V>(c: seq<V>, i: nat): seq<V> {
    if i <= |c| then c[i..] else []
  }

  /** Data row `i` is labelled with the `i`-th display year and quarter, and holds the `i`-th
      value of each model's list, in column order, or an empty cell. */
  ghost predicate RowHolds<V>(row: CsvRow<V>, i: nat, models: seq<string>, lists: map<string, seq<V>>)
    requires forall j :: 0 <= j < |models| ==> models[j] in lists
  {
    (row.year, row.quarter) == DisplayLabel(i) && |row.cells| == |models|
    && forall j :: 0 <= j < |models| ==> row.cells[j] == Nth(lists[models[j]], i)
  }

  /** The row loop: `display_year` goes up at every first quarter, and each model's list
      gives up its front value, if any, to the row. */
  method DataRows<V>(models: seq<string>, lists: map<string, seq<V>>, count: nat)
    returns (rows: seq<CsvRow<V>>)
    requires Distinct(models)
    requires forall j :: 0 <= j < |models| ==> models[j] in lists
    ensures |rows| == count
    ensures forall i :: 0 <= i < count ==> RowHolds(rows[i], i, models, lists)
  {
    var current := lists;
    rows := [];
    var displayYear := 0;
    var i := 0;
    while i < count
      invariant 0 <= i <= count && |rows| == i
      invariant displayYear == (i + 3) / 4
      invariant forall j :: 0 <= j < |models| ==> models[j] in current && current[models[j]] == Remaining(lists[models[j]], i)
      invariant forall k :: 0 <= k < i ==> RowHolds(rows[k], k, models, lists)
    {
      var displayQuarter := (i + 1) % 4;
      if displayQuarter == 0 {
        displayQuarter := 4;
      } else if displayQuarter == 1 {
        displayYear := displayYear + 1;
      }
      var cells, next := PopFronts(models, current);
      PoppedRow(models, lists, current, cells, next, i);
      assert (displayYear, displayQuarter) == DisplayLabel(i);
      rows := rows + [CsvRow(displayYear, displayQuarter, cells)];
      current := next;
      i := i + 1;
    }
  }

  /** The front value of a list, if any, and the list without it. */
  function Front<V>(c: seq<V>): Option<V> {
    if |c| > 0 then Some(c[0]) else None
  }

  function Rest<V>(c: seq<V>): seq<V> {
    if |c| > 0 then c[1..] else []
  }

  /** Popping the fronts of the lists left after `i` rows gives each list's `i`-th value and
      leaves what is left after `i + 1` rows. */
  lemma {:induction false} PoppedRow<V>(models: seq<string>, lists: map<string, seq<V>>, current: map<string, seq<V>>,
                     cells: seq<Option<V>>, next: map<string, seq<V>>, i: nat)
    requires forall j :: 0 <= j < |models| ==> models[j] in lists
    requires forall j :: 0 <= j < |models| ==> models[j] in current && current[models[j]] == Remaining(lists[models[j]], i)
    requires |cells| == |models| && next.Keys == current.Keys
    requires forall j :: 0 <= j < |models| ==> cells[j] == Front(current[models[j]])
    requires forall j :: 0 <= j < |models| ==> next[models[j]] == Rest(current[models[j]])
    ensures forall j :: 0 <= j < |models| ==> cells[j] == Nth(lists[models[j]], i)
    ensures forall j :: 0 <= j < |models| ==> models[j] in next && next[models[j]] == Remaining(lists[models[j]], i + 1)
  {
  }

  /** The inner loop of one row: `pop(0)` on each model's list that is not yet empty. */
  method PopFronts<V>(models: seq<string>, current: map<string, seq<V>>)
    returns (cells: seq<Option<V>>, next: map<string, seq<V>>)
    requires Distinct(models)
    requires forall j :: 0 <= j < |models| ==> models[j] in current
    ensures |cells| == |models| && next.Keys == current.Keys
    ensures forall j :: 0 <= j < |models| ==> cells[j] == Front(current[models[j]])
    ensures forall j :: 0 <= j < |models| ==> next[models[j]] == Rest(current[models[j]])
  {
    cells := [];
    next := current;
    var j := 0;
    while j < |models|
      invariant 0 <= j <= |models| && |cells| == j && next.Keys == current.Keys
      invariant forall k :: 0 <= k < j ==> cells[k] == Front(current[models[k]])
      invariant forall k :: 0 <= k < j ==> next[models[k]] == Rest(current[models[k]])
      invariant forall k :: j <= k < |models| ==> next[models[k]] == current[models[k]]
    {
      var model := models[j];
      if |next[model]| > 0 {
        cells := cells + [Some(next[model][0])];
        next := next[model := next[model][1..]];
      } else {
        cells := cells + [None];
      }
      j := j + 1;
    }
  }

  /** Data row `i` of the table computed from `afr`: the `i`-th display year and quarter,
      then, per model in sorted order, its `i`-th value in sorted quarter order or nothing. */
  ghost predicate DataRow<V>(row: CsvRow<V>, i: nat, afr: map<string, map<string, V>>) {
    var models := Sorted(afr.Keys);
    (row.year, row.quarter) == DisplayLabel(i) && |row.cells| == |models|
    && forall j :: 0 <= j < |models| ==> row.cells[j] == CellAt(afr, models[j], i)
  }

  /** `_generate_output_csv` without the file: the header and the data rows it writes. The
      only error is a model without a deploy count. */
  method GenerateOutput<V>(afr: map<string, map<string, V>>, deployed: map<string, nat>)
    returns (r: Result<(seq<string>, seq<CsvRow<V>>), PyError>)
    ensures r.Err? <==> !(afr.Keys <= deployed.Keys)
    ensures r.Err? ==> r.error == ItemError
    ensures r.Ok? ==> r.value.0 == Header(afr, deployed) && |r.value.1| == MaxQuarters(afr)
    ensures r.Ok? ==> forall i :: 0 <= i < |r.value.1| ==> DataRow(r.value.1[i], i, afr)
  {
    var h := HeaderAndDepth(afr, deployed);
    if h.Err? {
      return Err(h.error);
    }
    var lists := ColumnLists(afr);
    var rows := ColumnRows(afr, lists, h.value.1);
    return Ok((h.value.0, rows));
  }

  /** The first `count` data rows, read off the per-model columns in model order. */
  method ColumnRows<V>(afr: map<string, map<string, V>>, lists: map<string, seq<V>>, count: nat)
    returns (rows: seq<CsvRow<V>>)
    requires lists.Keys == afr.Keys
    requires forall m :: m in afr ==> lists[m] == Column(afr[m])
    ensures |rows| == count
    ensures forall i :: 0 <= i < |rows| ==> DataRow(rows[i], i, afr)
  {
    var models := Sorted(afr.Keys);
    SortedDistinct(afr.Keys);
    rows := DataRows(models, lists, count);
    RowsFromColumns(afr, lists, rows);
  }

  lemma {:induction false} RowsFromColumns<V>(afr: map<string, map<string, V>>, lists: map<string, seq<V>>, rows: seq<CsvRow<V>>)
    requires lists.Keys == afr.Keys
    requires forall m :: m in afr ==> lists[m] == Column(afr[m])
    requires forall i :: 0 <= i < |rows| ==> RowHolds(rows[i], i, Sorted(afr.Keys), lists)
    ensures forall i :: 0 <= i < |rows| ==> DataRow(rows[i], i, afr)
  {
  }

  /** The header names its columns once each: "Year", "Quarter" and the model labels are all
      different, so no two columns of the `DictWriter` collide. */
  lemma {:induction false} HeaderDistinct<V>(afr: map<string, map<string, V>>, deployed: map<string, nat>)
    requires afr.Keys <= deployed.Keys
    ensures |Header(afr, deployed)| == |afr.Keys| + 2
    ensures Distinct(Header(afr, deployed))
  {
    var models := Sorted(afr.Keys);
    var cols := ModelColumns(models, deployed);
    SortedDistinct(afr.Keys);
    ColumnsDistinct(models, deployed);
    forall j | 0 <= j < |cols| ensures cols[j] != "Year" && cols[j] != "Quarter" {
      LabelNotFixed(models[j], deployed[models[j]]);
    }
    FixedThenDistinct(cols);
  }

  lemma {:induction false} FixedThenDistinct(cols: seq<string>)
    requires Distinct(cols)
    requires forall j :: 0 <= j < |cols| ==> cols[j] != "Year" && cols[j] != "Quarter"
    ensures Distinct(["Year", "Quarter"] + cols)
  {
    var h := ["Year", "Quarter"] + cols;
    forall a, b | 0 <= a < b < |h| ensures h[a] != h[b] {
      if a >= 2 {
        assert h[a] == cols[a - 2] && h[b] == cols[b - 2];
      } else if b >= 2 {
        assert h[b] == cols[b - 2];
      }
    }
  }

  /** Different models get different labels. */
  lemma {:induction false} ColumnsDistinct(models: seq<string>, deployed: map<string, nat>)
    requires Distinct(models) && forall j :: 0 <= j < |models| ==> models[j] in deployed
    ensures Distinct(ModelColumns(models, deployed))
  {
    var cols := ModelColumns(models, deployed);
    forall a, b | 0 <= a < b < |cols| ensures cols[a] != cols[b] {
      if cols[a] == cols[b] {
        LabelInjective(models[a], deployed[models[a]], models[b], deployed[models[b]]);
      }
    }
  }

  /** A label has an opening parenthesis, which "Year" and "Quarter" do not. */
  lemma {:induction false} LabelNotFixed(name: string, count: nat)
    ensures Label(name, count) != "Year" && Label(name, count) != "Quarter"
  {
    var t := Label(name, count);
    assert t[|name| + 1] == '(';
    assert forall i :: 0 <= i < |"Year"| ==> "Year"[i] != '(';
    assert forall i :: 0 <= i < |"Quarter"| ==> "Quarter"[i] != '(';
  }

  /** No model has more quarters than there are data rows. */
  lemma {:induction false} MaxQuartersBound<V>(afr: map<string, map<string, V>>, m: string)
    requires m in afr
    ensures |afr[m]| <= MaxQuarters(afr)
  {
    var models := Sorted(afr.Keys);
    var j := IndexOf(models, m);
    MaxLenBound(afr, models, j);
  }

  lemma {:induction false} MaxLenBound<V>(afr: map<string, map<string, V>>, models: seq<string>, j: nat)
    requires forall k :: 0 <= k < |models| ==> models[k] in afr
    requires j < |models|
    ensures |afr[models[j]]| <= MaxLen(afr, models)
    decreases |models|
  {
    if j < |models| - 1 {
      MaxLenBound(afr, models[..|models| - 1], j);
    }
  }

  /** Some model has exactly as many quarters as there are data rows, so the last row is
      not empty. */
  lemma {:induction false} MaxQuartersAttained<V>(afr: map<string, map<string, V>>) returns (m: string)
    requires afr != map[]
    ensures m in afr && |afr[m]| == MaxQuarters(afr)
  {
    var models := Sorted(afr.Keys);
    var j := MaxLenAttained(afr, models);
    m := models[j];
  }

  lemma {:induction false} MaxLenAttained<V>(afr: map<string, map<string, V>>, models: seq<string>)
    returns (j: nat)
    requires forall k :: 0 <= k < |models| ==> models[k] in afr
    requires |models| > 0
    ensures j < |models| && |afr[models[j]]| == MaxLen(afr, models)
    decreases |models|
  {
    var n := |models| - 1;
    if n == 0 {
      j := 0;
    } else {
      j := MaxLenAttained(afr, models[..n]);
      if MaxLen(afr, models[..n]) < |afr[models[n]]| {
        j := n;
      }
    }
  }

  /** Every value of every model is written: the one of its `i`-th quarter in sorted order
      goes to data row `i`, which exists. */
  lemma {:induction false} EveryValueShown<V>(afr: map<string, map<string, V>>, m: string, k: string) returns (i: nat)
    requires m in afr && k in afr[m]
    ensures i < |afr[m].Keys| && Sorted(afr[m].Keys)[i] == k && i < MaxQuarters(afr)
    ensures CellAt(afr, m, i) == Some(afr[m][k])
  {
    i := IndexOf(Sorted(afr[m].Keys), k);
    MaxQuartersBound(afr, m);
  }
}
