/** `_create_xlsx_viz_data` (quarterly_afr_xlsx_from_iceberg.py): the per-manufacturer,
    per-model lists of quarterly entries that the spreadsheet shows. Every row adds its
    drive-days and failures to its model's running sums; a row whose quarter had enough drives
    deployed also appends an entry carrying the AFR of those sums. Models left without an
    entry are then deleted, and an entry in the newest quarter reports its failures as its
    removed drives. */
module XlsxVizData {
  import opened Wrappers
  import opened Order
  import opened Text
  import opened Quarters
  import opened Tallies
  import opened AfrWalk

  /** One row of the enriched quarterly frame, in the frame's order (sorted by model, year and
      quarter). */
  datatype QuarterRow = QuarterRow(
    modelName: string, year: nat, quarter: nat,
    newDrives: int, deployed: int, removedDrives: int, failures: int, driveDays: int)

  /** One quarter of one model as the spreadsheet shows it; `afr` is the AFR of the model's
      running sums up to and including this quarter. */
  datatype VizEntry = VizEntry(
    yearQuarter: string, newDrives: int, removedDrives: int, deployed: int, failures: int,
    afr: real)

  type VizData = map<string, map<string, seq<VizEntry>>>

  /** What the loop over the rows keeps: the greatest quarter label seen, the running sums per
      manufacturer and model, and the entries so far. */
  datatype VizState = VizState(
    maxQuarter: string, cumulative: map<string, map<string, Counts>>, data: VizData)

  /** The label the greatest quarter starts from. */
  const InitialQuarter: string := "1970 Q1"

  const Initial: VizState := VizState(InitialQuarter, map[], map[])

  /** `f"{year} Q{quarter}"` of a row. */
  function RowLabel(row: QuarterRow): string {
    QuarterLabel(row.year, row.quarter)
  }

  /** What unpacking `model_name.split()` into two names raises when it has `n != 2` words. */
  function UnpackError(n: nat): PyError {
    if n < 2 then ValueError("not enough values to unpack (expected 2, got " + (if n == 0 then "0" else "1") + ")")
    else ValueError("too many values to unpack (expected 2)")
  }

  /** `m[k1][k2]`, or the empty list when either key is missing. */
  function ListOr(m: VizData, k1: string, k2: string): seq<VizEntry> {
    if k1 in m && k2 in m[k1] then m[k1][k2] else []
  }

  /** `m[k1][k2] = l`, creating `m[k1]` when missing. */
  function PutList(m: VizData, k1: string, k2: string, l: seq<VizEntry>): (r: VizData)
    ensures r.Keys == m.Keys + {k1}
    ensures r[k1].Keys == (if k1 in m then m[k1].Keys else {}) + {k2}
    ensures r[k1][k2] == l
    ensures forall j :: j in m && j != k1 ==> r[j] == m[j]
    ensures k1 in m ==> forall j :: j in m[k1] && j != k2 ==> r[k1][j] == m[k1][j]
  {
    m[k1 := (if k1 in m then m[k1] else map[])[k2 := l]]
  }

  /** The entry a qualifying row appends once its model's running sums are `c`. */
  function EntryOf(row: QuarterRow, afr: real): VizEntry {
    VizEntry(RowLabel(row), row.newDrives, row.removedDrives, row.deployed, row.failures, afr)
  }

  /** One row: its name must split into a manufacturer and a model; the greatest label is
      updated; the model's running sums are created at zero and the row added to them; then,
      when at least `minDrives` drives were deployed in the quarter, an entry with the AFR of
      the running sums is appended (the list is created empty in any case). */
  function Step(st: VizState, row: QuarterRow, minDrives: int): Result<VizState, PyError> {
    var words := Split(row.modelName);
    if |words| != 2 then Err(UnpackError(|words|))
    else
      var mfr, model := words[0], words[1];
      var maxQuarter := Max2(st.maxQuarter, RowLabel(row));
      var cumulative := AddAt(st.cumulative, mfr, model, Counts(row.driveDays, row.failures));
      var before := ListOr(st.data, mfr, model);
      if row.deployed >= minDrives then
        var afr := Afr(cumulative[mfr][model]);
        if afr.Err? then Err(afr.error)
        else Ok(VizState(maxQuarter, cumulative, PutList(st.data, mfr, model, before + [EntryOf(row, afr.value)])))
      else Ok(VizState(maxQuarter, cumulative, PutList(st.data, mfr, model, before)))
  }

  /** The state after the rows, in order; the first failing row ends the loop. */
  function Fold(rows: seq<QuarterRow>, minDrives: int): Result<VizState, PyError>
    decreases |rows|
  {
    if |rows| == 0 then Ok(Initial)
    else
      var prev := Fold(rows[..|rows| - 1], minDrives);
      if prev.Err? then prev else Step(prev.value, rows[|rows| - 1], minDrives)
  }

  /** The cleanup of one surviving model: when its last entry is in quarter `maxQuarter`, that
      entry's removed drives become its failure count. */
  function MarkLast(es: seq<VizEntry>, maxQuarter: string): (r: seq<VizEntry>)
    requires |es| > 0
    ensures |r| == |es| && r[..|r| - 1] == es[..|es| - 1]
    ensures r[|r| - 1] == if es[|es| - 1].yearQuarter == maxQuarter
                          then es[|es| - 1].(removedDrives := es[|es| - 1].failures)
                          else es[|es| - 1]
  {
    var last := es[|es| - 1];
    if last.yearQuarter == maxQuarter then es[..|es| - 1] + [last.(removedDrives := last.failures)] else es
  }

  /** The cleanup of one manufacturer: models without entries are dropped, the others marked. */
  function CleanModels(models: map<string, seq<VizEntry>>, maxQuarter: string): map<string, seq<VizEntry>> {
    map x | x in models && |models[x]| > 0 :: MarkLast(models[x], maxQuarter)
  }

  /** The cleanup: every manufacturer stays, with its models cleaned. */
  function Cleanup(data: VizData, maxQuarter: string): VizData {
    map m | m in data :: CleanModels(data[m], maxQuarter)
  }

  /** The result of `_create_xlsx_viz_data`. */
  function VizDataOf(rows: seq<QuarterRow>, minDrives: int): Result<VizData, PyError> {
    var f := Fold(rows, minDrives);
    if f.Err? then Err(f.error) else Ok(Cleanup(f.value.data, f.value.maxQuarter))
  }

  // ---------------------------------------------------------------------------------------
  // One model at a time

  /** The row is of manufacturer `mfr` and model `model`. */
  predicate IsOf(row: QuarterRow, mfr: string, model: string) {
    Split(row.modelName) == [mfr, model]
  }

  /** The rows of one manufacturer and model, in order. */
  function Matching(rows: seq<QuarterRow>, mfr: string, model: string): (r: seq<QuarterRow>)
    ensures forall k :: 0 <= k < |r| ==> IsOf(r[k], mfr, model)
    decreases |rows|
  {
    if |rows| == 0 then []
    else
      var last := rows[|rows| - 1];
      Matching(rows[..|rows| - 1], mfr, model) + (if IsOf(last, mfr, model) then [last] else [])
  }

  /** Those of the rows with at least `minDrives` drives deployed in their quarter. */
  function Qualifying(rows: seq<QuarterRow>, minDrives: int): (r: seq<QuarterRow>)
    ensures forall k :: 0 <= k < |r| ==> r[k].deployed >= minDrives
    decreases |rows|
  {
    if |rows| == 0 then []
    else
      var last := rows[|rows| - 1];
      Qualifying(rows[..|rows| - 1], minDrives) + (if last.deployed >= minDrives then [last] else [])
  }

  /** The drive-days and failures of some rows, added up. */
  function RowSums(rs: seq<QuarterRow>): Counts
    decreases |rs|
  {
    if |rs| == 0 then Zero
    else
      var t := RowSums(rs[..|rs| - 1]);
      Counts(t.drives + rs[|rs| - 1].driveDays, t.failures + rs[|rs| - 1].failures)
  }

  /** The entries of one model, computed on its own: one per qualifying row of the model, in
      order, each with the AFR of the drive-days and failures of ALL the model's rows up to and
      including it, qualifying or not. A zero sum of drive-days there fails. */
  function ModelEntries(rows: seq<QuarterRow>, mfr: string, model: string, minDrives: int)
    : (r: Result<seq<VizEntry>, PyError>)
    ensures r.Err? ==> r.error == ZeroDivisionError
    decreases |rows|
  {
    if |rows| == 0 then Ok([])
    else
      var init, last := rows[..|rows| - 1], rows[|rows| - 1];
      var prev := ModelEntries(init, mfr, model, minDrives);
      if prev.Err? || !IsOf(last, mfr, model) || last.deployed < minDrives then prev
      else
        var afr := Afr(RowSums(Matching(rows, mfr, model)));
        if afr.Err? then Err(afr.error) else Ok(prev.value + [EntryOf(last, afr.value)])
  }

  /** A model's entries are its qualifying rows, one each, in order, with the rows' fields. */
  lemma {:induction false} ModelEntriesShape(rows: seq<QuarterRow>, mfr: string, model: string, minDrives: int)
    requires ModelEntries(rows, mfr, model, minDrives).Ok?
    ensures var es := ModelEntries(rows, mfr, model, minDrives).value;
      var q := Qualifying(Matching(rows, mfr, model), minDrives);
      |es| == |q| && forall k :: 0 <= k < |q| ==> es[k] == EntryOf(q[k], es[k].afr)
    decreases |rows|
  {
    if |rows| > 0 {
      var init, last := rows[..|rows| - 1], rows[|rows| - 1];
      ModelEntriesShape(init, mfr, model, minDrives);
      MatchingSnoc(rows, mfr, model);
      QualifyingSnoc(Matching(init, mfr, model), last, minDrives);
    }
  }

  /** A successful loop leaves, for every manufacturer and model, a running sum exactly when it
      has a row, and that sum is over all its rows. */
  lemma {:induction false} FoldSums(rows: seq<QuarterRow>, minDrives: int, mfr: string, model: string)
    requires Fold(rows, minDrives).Ok?
    ensures var st := Fold(rows, minDrives).value;
      && CellOr(st.cumulative, mfr, model) == RowSums(Matching(rows, mfr, model))
      && ((mfr in st.cumulative && model in st.cumulative[mfr]) <==> |Matching(rows, mfr, model)| > 0)
    decreases |rows|
  {
    if |rows| > 0 {
      var init, last := rows[..|rows| - 1], rows[|rows| - 1];
      FoldSnoc(rows, minDrives);
      FoldSums(init, minDrives, mfr, model);
      StepModel(Fold(init, minDrives).value, last, minDrives, mfr, model);
      MatchingSnoc(rows, mfr, model);
    }
  }

  /** A successful loop leaves, for every manufacturer and model, a list exactly when it has a
      row, and that list is the one `ModelEntries` computes. */
  lemma {:induction false} FoldModel(rows: seq<QuarterRow>, minDrives: int, mfr: string, model: string)
    requires Fold(rows, minDrives).Ok?
    ensures var st := Fold(rows, minDrives).value;
      && ((mfr in st.data && model in st.data[mfr]) <==> |Matching(rows, mfr, model)| > 0)
      && ModelEntries(rows, mfr, model, minDrives) == Ok(ListOr(st.data, mfr, model))
    decreases |rows|
  {
    if |rows| > 0 {
      var init, last := rows[..|rows| - 1], rows[|rows| - 1];
      FoldSnoc(rows, minDrives);
      FoldModel(init, minDrives, mfr, model);
      FoldSums(rows, minDrives, mfr, model);
      StepModel(Fold(init, minDrives).value, last, minDrives, mfr, model);
      MatchingSnoc(rows, mfr, model);
    }
  }

  lemma {:induction false} QualifyingSnoc(rs: seq<QuarterRow>, last: QuarterRow, minDrives: int)
    ensures Qualifying(rs + [last], minDrives)
            == Qualifying(rs, minDrives) + if last.deployed >= minDrives then [last] else []
  {
    assert (rs + [last])[..|rs|] == rs;
  }

  /** The last row joins the rows of its own manufacturer and model only. */
  lemma {:induction false} MatchingSnoc(rows: seq<QuarterRow>, mfr: string, model: string)
    requires |rows| > 0
    ensures var m := Matching(rows[..|rows| - 1], mfr, model);
      var last := rows[|rows| - 1];
      if IsOf(last, mfr, model)
      then Matching(rows, mfr, model) == m + [last]
           && RowSums(m + [last]) == Counts(RowSums(m).drives + last.driveDays, RowSums(m).failures + last.failures)
      else Matching(rows, mfr, model) == m
  {
    var m := Matching(rows[..|rows| - 1], mfr, model);
    assert (m + [rows[|rows| - 1]])[..|m|] == m;
  }

  /** One row changes the sums, the keys and the list of its own manufacturer and model only. */
  lemma {:induction false} StepModel(st: VizState, row: QuarterRow, minDrives: int, mfr: string, model: string)
    requires Step(st, row, minDrives).Ok?
    ensures var st' := Step(st, row, minDrives).value;
      var c := CellOr(st.cumulative, mfr, model);
      var c' := CellOr(st'.cumulative, mfr, model);
      var mine := IsOf(row, mfr, model);
      && c' == (if mine then Counts(c.drives + row.driveDays, c.failures + row.failures) else c)
      && ((mfr in st'.cumulative && model in st'.cumulative[mfr])
          <==> mine || (mfr in st.cumulative && model in st.cumulative[mfr]))
      && ((mfr in st'.data && model in st'.data[mfr]) <==> mine || (mfr in st.data && model in st.data[mfr]))
      && (mine && row.deployed >= minDrives ==> Afr(c').Ok?)
      && ListOr(st'.data, mfr, model)
         == if mine && row.deployed >= minDrives
            then ListOr(st.data, mfr, model) + [EntryOf(row, Afr(c').value)]
            else ListOr(st.data, mfr, model)
  {
    StepSums(st, row, minDrives, mfr, model);
    StepList(st, row, minDrives, mfr, model);
  }

  lemma {:induction false} StepSums(st: VizState, row: QuarterRow, minDrives: int, mfr: string, model: string)
    requires Step(st, row, minDrives).Ok?
    ensures var st' := Step(st, row, minDrives).value;
      var c := CellOr(st.cumulative, mfr, model);
      var mine := IsOf(row, mfr, model);
      && CellOr(st'.cumulative, mfr, model) == (if mine then Counts(c.drives + row.driveDays, c.failures + row.failures) else c)
      && ((mfr in st'.cumulative && model in st'.cumulative[mfr])
          <==> mine || (mfr in st.cumulative && model in st.cumulative[mfr]))
  {
    var w := Split(row.modelName);
    var d := Counts(row.driveDays, row.failures);
    assert Step(st, row, minDrives).value.cumulative == AddAt(st.cumulative, w[0], w[1], d);
    assert IsOf(row, mfr, model) == (w[0] == mfr && w[1] == model);
    AddAtCell(st.cumulative, w[0], w[1], d, mfr, model, IsOf(row, mfr, model));
  }

  lemma {:induction false} StepList(st: VizState, row: QuarterRow, minDrives: int, mfr: string, model: string)
    requires Step(st, row, minDrives).Ok?
    ensures var st' := Step(st, row, minDrives).value;
      var c' := CellOr(st'.cumulative, mfr, model);
      var mine := IsOf(row, mfr, model);
      && ((mfr in st'.data && model in st'.data[mfr]) <==> mine || (mfr in st.data && model in st.data[mfr]))
      && (mine && row.deployed >= minDrives ==> Afr(c').Ok?)
      && ListOr(st'.data, mfr, model)
         == if mine && row.deployed >= minDrives
            then ListOr(st.data, mfr, model) + [EntryOf(row, Afr(c').value)]
            else ListOr(st.data, mfr, model)
  {
    var w := Split(row.modelName);
    AddAtElsewhere(st.cumulative, w[0], w[1], Counts(row.driveDays, row.failures));
  }

  /** Every manufacturer the loop leaves holds at least one model. */
  lemma {:induction false} FoldMfrs(rows: seq<QuarterRow>, minDrives: int)
    requires Fold(rows, minDrives).Ok?
    ensures var st := Fold(rows, minDrives).value;
      forall m :: m in st.data ==> st.data[m] != map[]
    decreases |rows|
  {
    if |rows| > 0 {
      FoldMfrs(rows[..|rows| - 1], minDrives);
    }
  }

  /** A successful loop succeeded on all but the last row, then on the last. */
  lemma {:induction false} FoldSnoc(rows: seq<QuarterRow>, minDrives: int)
    requires |rows| > 0 && Fold(rows, minDrives).Ok?
    ensures Fold(rows[..|rows| - 1], minDrives).Ok?
    ensures Fold(rows, minDrives) == Step(Fold(rows[..|rows| - 1], minDrives).value, rows[|rows| - 1], minDrives)
  {
  }

  /** The quarter labels of the rows, in order. */
  function Labels(rows: seq<QuarterRow>): (r: seq<string>)
    ensures |r| == |rows| && forall i :: 0 <= i < |rows| ==> r[i] == RowLabel(rows[i])
  {
    seq(|rows|, i requires 0 <= i < |rows| => RowLabel(rows[i]))
  }

  /** `max(max_year_quarter, year_quarter)` over the labels in turn, from "1970 Q1". */
  function MaxLabel(labels: seq<string>): string {
    if |labels| == 0 then InitialQuarter else Max2(MaxLabel(labels[..|labels| - 1]), labels[|labels| - 1])
  }

  /** No label is greater than the running maximum, which is the initial label or one of them. */
  lemma {:induction false} MaxLabelBounds(labels: seq<string>)
    ensures var q := MaxLabel(labels);
      && LessEq(InitialQuarter, q)
      && (forall i :: 0 <= i < |labels| ==> LessEq(labels[i], q))
      && (q == InitialQuarter || exists i :: 0 <= i < |labels| && labels[i] == q)
  {
    if |labels| > 0 {
      var init, last := labels[..|labels| - 1], labels[|labels| - 1];
      MaxLabelBounds(init);
      var p, q := MaxLabel(init), MaxLabel(labels);
      forall i | 0 <= i < |labels| ensures LessEq(labels[i], q) {
        if i < |init| {
          assert labels[i] == init[i];
          LessEqTrans(labels[i], p, q);
        }
      }
      LessEqTrans(InitialQuarter, p, q);
      if q != InitialQuarter && q == p {
        var i :| 0 <= i < |init| && init[i] == q;
        assert labels[i] == init[i];
      }
    }
  }

  /** The greatest label the loop keeps is the running maximum of the rows' labels. */
  lemma {:induction false} FoldMaxQuarter(rows: seq<QuarterRow>, minDrives: int)
    requires Fold(rows, minDrives).Ok?
    ensures Fold(rows, minDrives).value.maxQuarter == MaxLabel(Labels(rows))
    decreases |rows|
  {
    if |rows| > 0 {
      var init := rows[..|rows| - 1];
      FoldSnoc(rows, minDrives);
      FoldMaxQuarter(init, minDrives);
      StepMax(Fold(init, minDrives).value, rows[|rows| - 1], minDrives);
      assert Labels(rows)[..|rows| - 1] == Labels(init);
    }
  }

  lemma {:induction false} StepMax(st: VizState, row: QuarterRow, minDrives: int)
    requires Step(st, row, minDrives).Ok?
    ensures Step(st, row, minDrives).value.maxQuarter == Max2(st.maxQuarter, RowLabel(row))
  {
  }

  lemma {:induction false} LessEqTrans(a: string, b: string, c: string)
    requires LessEq(a, b) && LessEq(b, c)
    ensures LessEq(a, c)
  {
    if Less(a, b) && Less(b, c) { LessTransitive(a, b, c); }
  }

  /** What `_create_xlsx_viz_data` returns keeps a manufacturer exactly when some row is of it,
      models or not. */
  lemma {:induction false} VizDataMfrs(rows: seq<QuarterRow>, minDrives: int, mfr: string)
    requires Fold(rows, minDrives).Ok?
    ensures var st := Fold(rows, minDrives).value;
      mfr in Cleanup(st.data, st.maxQuarter) <==> exists x :: |Matching(rows, mfr, x)| > 0
  {
    var st := Fold(rows, minDrives).value;
    FoldMfrs(rows, minDrives);
    if mfr in st.data {
      var x :| x in st.data[mfr];
      FoldModel(rows, minDrives, mfr, x);
    }
    if x :| |Matching(rows, mfr, x)| > 0 {
      FoldModel(rows, minDrives, mfr, x);
    }
  }

  /** What `_create_xlsx_viz_data` returns, for one manufacturer and model: the model is kept
      exactly when one of its rows qualifies, and its list is its own entries, the last one
      marked when it is in the greatest quarter of all the rows. */
  lemma {:induction false} VizDataModel(rows: seq<QuarterRow>, minDrives: int, mfr: string, model: string)
    requires Fold(rows, minDrives).Ok?
    ensures var st := Fold(rows, minDrives).value;
      var d := Cleanup(st.data, st.maxQuarter);
      var es := ModelEntries(rows, mfr, model, minDrives);
      && es.Ok?
      && |es.value| == |Qualifying(Matching(rows, mfr, model), minDrives)|
      && (mfr in d ==> (model in d[mfr] <==> |es.value| > 0))
      && (mfr in d && model in d[mfr] && |es.value| > 0
          ==> d[mfr][model] == MarkLast(es.value, MaxLabel(Labels(rows))))
  {
    FoldModel(rows, minDrives, mfr, model);
    FoldMaxQuarter(rows, minDrives);
    ModelEntriesShape(rows, mfr, model, minDrives);
  }

  // ---------------------------------------------------------------------------------------
  // The loops

  /** `_create_xlsx_viz_data`: the loop over the rows, then the cleanup of the dictionary. */
  method CreateXlsxVizData(rows: seq<QuarterRow>, minDrives: int) returns (r: Result<VizData, PyError>)
    ensures r == VizDataOf(rows, minDrives)
  {
    var st := Initial;
    var i := 0;
    while i < |rows|
      invariant 0 <= i <= |rows|
      invariant Fold(rows[..i], minDrives) == Ok(st)
    {
      assert rows[..i + 1][..i] == rows[..i];
      var next := AddQuarterRow(st, rows[i], minDrives);
      if next.Err? {
        FoldErrPersists(rows, minDrives, i + 1);
        return Err(next.error);
      }
      st := next.value;
      i := i + 1;
    }
    assert rows[..i] == rows;
    var data := CleanupData(st.data, st.maxQuarter);
    r := Ok(data);
  }

  /** Once a prefix of the rows fails, the whole loop fails with the same error. */
  lemma {:induction false} FoldErrPersists(rows: seq<QuarterRow>, minDrives: int, n: nat)
    requires n <= |rows| && Fold(rows[..n], minDrives).Err?
    ensures Fold(rows, minDrives) == Fold(rows[..n], minDrives)
    decreases |rows| - n
  {
    if n < |rows| {
      assert rows[..n + 1][..n] == rows[..n];
      FoldErrPersists(rows, minDrives, n + 1);
    } else {
      assert rows[..n] == rows;
    }
  }

  /** The body of the loop over the rows. */
  method AddQuarterRow(st: VizState, row: QuarterRow, minDrives: int) returns (r: Result<VizState, PyError>)
    ensures r == Step(st, row, minDrives)
  {
    var words := Split(row.modelName);
    if |words| != 2 {
      return Err(UnpackError(|words|));
    }
    var mfr, model := words[0], words[1];
    var yearQuarter := QuarterLabel(row.year, row.quarter);
    var maxQuarter := Max2(st.maxQuarter, yearQuarter);
    var inner := if mfr in st.cumulative then st.cumulative[mfr] else map[];
    var sums := if model in inner then inner[model] else Zero;
    sums := Counts(sums.drives + row.driveDays, sums.failures + row.failures);
    var cumulative := st.cumulative[mfr := inner[model := sums]];
    assert cumulative == AddAt(st.cumulative, mfr, model, Counts(row.driveDays, row.failures));
    // the model's list, created empty alongside its running sums
    var entries := if mfr in st.data && model in st.data[mfr] then st.data[mfr][model] else [];
    if row.deployed >= minDrives {
      var afr := Afr(sums);
      if afr.Err? {
        return Err(afr.error);
      }
      entries := entries + [VizEntry(yearQuarter, row.newDrives, row.removedDrives, row.deployed, row.failures, afr.value)];
    }
    r := Ok(VizState(maxQuarter, cumulative, PutList(st.data, mfr, model, entries)));
  }

  /** The cleanup loop: manufacturers in sorted order, each cleaned in turn. */
  method CleanupData(data: VizData, maxQuarter: string) returns (r: VizData)
    ensures r == Cleanup(data, maxQuarter)
  {
    SortedDistinct(data.Keys);
    r := CleanupMfrsInOrder(data, Sorted(data.Keys), maxQuarter);
  }

  /** The cleanup of the manufacturers `mfrs` lists, each once, in that order. */
  method CleanupMfrsInOrder(data: VizData, mfrs: seq<string>, maxQuarter: string) returns (r: VizData)
    requires Distinct(mfrs) && forall m :: m in mfrs <==> m in data
    ensures r == Cleanup(data, maxQuarter)
  {
    ghost var done: set<string> := {};
    r := data;
    for i := 0 to |mfrs|
      invariant r.Keys == data.Keys
      invariant forall k :: 0 <= k < |mfrs| ==> (mfrs[k] in done <==> k < i)
      invariant forall m :: m in data ==> r[m] == if m in done then CleanModels(data[m], maxQuarter) else data[m]
    {
      DoneGrows(mfrs, done, i);
      var models := CleanupModels(r[mfrs[i]], maxQuarter);
      r := r[mfrs[i] := models];
      done := done + {mfrs[i]};
    }
    forall m | m in data ensures m in done {
      var k :| 0 <= k < |mfrs| && mfrs[k] == m;
    }
  }

  /** One manufacturer's models, in sorted order: an empty list is deleted; otherwise the last
      entry is marked when it is in quarter `maxQuarter`. */
  method CleanupModels(models: map<string, seq<VizEntry>>, maxQuarter: string)
    returns (r: map<string, seq<VizEntry>>)
    ensures r == CleanModels(models, maxQuarter)
  {
    SortedDistinct(models.Keys);
    r := CleanupInOrder(models, Sorted(models.Keys), maxQuarter);
  }

  /** The cleanup of the models `names` lists, each once, in that order. */
  method CleanupInOrder(models: map<string, seq<VizEntry>>, names: seq<string>, maxQuarter: string)
    returns (r: map<string, seq<VizEntry>>)
    requires Distinct(names) && forall x :: x in names <==> x in models
    ensures r == CleanModels(models, maxQuarter)
  {
    ghost var done: set<string> := {};
    r := models;
    for j := 0 to |names|
      invariant forall k :: 0 <= k < |names| ==> (names[k] in done <==> k < j)
      invariant CleanedSoFar(models, maxQuarter, done, r)
    {
      DoneGrows(names, done, j);
      var x := names[j];
      ghost var before := r;
      r := CleanupModel(r, x, maxQuarter);
      CleanStep(models, maxQuarter, done, x, before, r);
      done := done + {x};
    }
    forall x | x in models ensures x in done {
      var k :| 0 <= k < |names| && names[k] == x;
    }
    CleanEnd(models, maxQuarter, done, r);
  }

  /** The cleanup with the models of `done` cleaned and the others as they were. */
  ghost predicate CleanedSoFar(models: map<string, seq<VizEntry>>, maxQuarter: string, done: set<string>,
                               r: map<string, seq<VizEntry>>)
  {
    r.Keys <= models.Keys
    && (forall x :: x in models && x in done ==>
          (x in r <==> |models[x]| > 0) && (x in r ==> r[x] == MarkLast(models[x], maxQuarter)))
    && (forall x :: x in models && x !in done ==> x in r && r[x] == models[x])
  }

  lemma {:induction false} CleanStep(models: map<string, seq<VizEntry>>, maxQuarter: string, done: set<string>,
                                     x: string, r: map<string, seq<VizEntry>>, r': map<string, seq<VizEntry>>)
    requires x in models && x !in done && CleanedSoFar(models, maxQuarter, done, r) && x in r
    requires r' == if |r[x]| == 0 then r - {x} else r[x := MarkLast(r[x], maxQuarter)]
    ensures CleanedSoFar(models, maxQuarter, done + {x}, r')
  {
    assert r[x] == models[x];
  }

  lemma {:induction false} CleanEnd(models: map<string, seq<VizEntry>>, maxQuarter: string, done: set<string>,
                                    r: map<string, seq<VizEntry>>)
    requires models.Keys <= done && CleanedSoFar(models, maxQuarter, done, r)
    ensures r == CleanModels(models, maxQuarter)
  {
    assert r.Keys == CleanModels(models, maxQuarter).Keys;
  }

  /** One model of the cleanup: its empty list is deleted, or its last entry marked. */
  method CleanupModel(models: map<string, seq<VizEntry>>, x: string, maxQuarter: string)
    returns (r: map<string, seq<VizEntry>>)
    requires x in models
    ensures r == if |models[x]| == 0 then models - {x} else models[x := MarkLast(models[x], maxQuarter)]
  {
    var es := models[x];
    r := models;
    if |es| == 0 {
      r := r - {x};
    } else {
      var last := es[|es| - 1];
      if last.yearQuarter == maxQuarter {
        r := r[x := es[..|es| - 1] + [last.(removedDrives := last.failures)]];
      }
    }
  }

  /** Visiting the `j`-th of distinct names adds it, and only it, to those visited. */
  lemma {:induction false} DoneGrows(names: seq<string>, done: set<string>, j: int)
    requires Distinct(names) && 0 <= j < |names|
    requires forall k :: 0 <= k < |names| ==> (names[k] in done <==> k < j)
    ensures names[j] !in done
    ensures forall k :: 0 <= k < |names| ==> (names[k] in done + {names[j]} <==> k < j + 1)
  {
  }
}
