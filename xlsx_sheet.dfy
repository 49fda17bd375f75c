/** The worksheet side of quarterly_afr_xlsx_from_iceberg.py: spreadsheet column letters and
    the ranges the colour scales cover, the year/quarter label columns, the seven columns of
    each model, and the two counts that size them. The worksheet is the log of the cell writes
    made to it. */
module XlsxSheet {
  import opened Order
  import opened Text
  import opened Numerals
  import opened Quarters
  import opened XlsxVizData

  // ---------------------------------------------------------------------------------------
  // Column letters

  /** The spreadsheet name of the column with 0-based index `i`: A to Z, then AA to ZZ, then
      AAA and on, a bijective base-26 numeral. */
  function ColumnName(i: nat): (s: string)
    ensures |s| >= 1 && forall k :: 0 <= k < |s| ==> 'A' <= s[k] <= 'Z'
    decreases i
  {
    if i < 26 then [(65 + i) as char] else ColumnName(i / 26 - 1) + [(65 + i % 26) as char]
  }

  /** The column index plus one that a name of letters stands for. */
  function ColumnValue(s: string): int
    decreases |s|
  {
    if |s| == 0 then 0 else ColumnValue(s[..|s| - 1]) * 26 + (s[|s| - 1] as int - 64)
  }

  /** Reading a column name back gives its index. */
  lemma {:induction false} ColumnNameValue(i: nat)
    ensures ColumnValue(ColumnName(i)) == i + 1
    decreases i
  {
    if i >= 26 {
      var s := ColumnName(i / 26 - 1);
      ColumnNameValue(i / 26 - 1);
      var t := s + [(65 + i % 26) as char];
      assert t[..|t| - 1] == s;
    }
  }

  /** Different columns have different names. */
  lemma {:induction false} ColumnNameInjective(i: nat, j: nat)
    ensures ColumnName(i) == ColumnName(j) <==> i == j
  {
    ColumnNameValue(i);
    ColumnNameValue(j);
  }

  /** The code points of a string. */
  function Codes(s: string): (r: seq<int>)
    ensures |r| == |s| && forall k :: 0 <= k < |s| ==> r[k] == s[k] as int
  {
    seq(|s|, k requires 0 <= k < |s| => s[k] as int)
  }

  /** The letters `_xlsx_create_multi_range` builds for column index `i`, as code points: when
      `i // 26 > 0`, `chr(ord('A') + i // 26 - 1)`; then `chr(ord('A') + i % 26)`. */
  function ColumnCodesAsWritten(i: nat): seq<int> {
    (if i / 26 > 0 then [65 + i / 26 - 1] else []) + [65 + i % 26]
  }

  /** Below index 702 (column "AAA") the letters built are the column's name. */
  lemma {:induction false} ColumnCodesAgree(i: nat)
    requires i < 702
    ensures ColumnCodesAsWritten(i) == Codes(ColumnName(i))
  {
    if i >= 26 {
      assert ColumnName(i / 26 - 1) == [(65 + i / 26 - 1) as char];
    }
  }

  /** From index 702 on, the first letter built is past 'Z': index 702 gives "[A" for the
      column named "AAA". */
  lemma {:induction false} ColumnCodesFrom702(i: nat)
    requires i >= 702
    ensures ColumnCodesAsWritten(i)[0] > 'Z' as int
    ensures ColumnCodesAsWritten(i) != Codes(ColumnName(i))
    ensures i == 702 ==> ColumnCodesAsWritten(i) == ['[' as int, 'A' as int] && ColumnName(i) == "AAA"
  {
    if i == 702 {
      assert ColumnName(26) == ColumnName(0) + ['A'];
      assert ColumnName(702) == ColumnName(26) + ['A'];
    }
  }

  // ---------------------------------------------------------------------------------------
  // `_xlsx_create_multi_range`

  /** The columns a block of one model spans. */
  const ColumnsPerModel: nat := 7

  /** The first data row, in the 1-based row numbers of a range. */
  const FirstRangeRow: nat := 6

  /** The column names of `total` models' columns, `start` then every seventh. */
  function ModelColumnNames(total: nat, start: nat): (r: seq<string>)
    ensures |r| == total
    decreases total
  {
    if total == 0 then [] else [ColumnName(start)] + ModelColumnNames(total - 1, start + ColumnsPerModel)
  }

  lemma {:induction false} ModelColumnNamesAt(total: nat, start: nat, k: nat)
    requires k < total
    ensures ModelColumnNames(total, start)[k] == ColumnName(start + 7 * k)
    decreases k
  {
    if k > 0 {
      ModelColumnNamesAt(total - 1, start + ColumnsPerModel, k - 1);
    }
  }

  /** `f"{letters}6:{letters}{end_row}"` with `end_row = 6 + max_rows - 1`. */
  function RangeOf(letters: string, maxRows: nat): string {
    letters + Decimal(FirstRangeRow) + ":" + letters + Decimal(FirstRangeRow + maxRows - 1)
  }

  /** The ranges of `total` models from column `start`, one per model. */
  function Ranges(total: nat, maxRows: nat, start: nat): (r: seq<string>)
    ensures |r| == total
  {
    var names := ModelColumnNames(total, start);
    seq(total, k requires 0 <= k < total => RangeOf(names[k], maxRows))
  }

  /** The multi-range `_xlsx_create_multi_range` evidently means to build: `" ".join(...)` of
      the ranges, each column named by its spreadsheet name. */
  function MultiRange(total: nat, maxRows: nat, start: nat): string {
    Join(" ", Ranges(total, maxRows, start))
  }

  lemma {:induction false} RangesAt(total: nat, maxRows: nat, start: nat, k: nat)
    requires k < total
    ensures Ranges(total, maxRows, start)[k]
            == ColumnName(start + 7 * k) + "6:" + ColumnName(start + 7 * k) + Decimal(5 + maxRows)
    ensures ' ' !in Ranges(total, maxRows, start)[k]
  {
    ModelColumnNamesAt(total, start, k);
    assert Decimal(FirstRangeRow) == "6";
    NoSpaceInRange(ColumnName(start + 7 * k), Decimal(5 + maxRows));
  }

  /** The multi-range is `total` ranges apart by single spaces, the `k`-th from row 6 to row
      `5 + maxRows` of column `start + 7 k`. */
  lemma {:induction false} MultiRangeParts(total: nat, maxRows: nat, start: nat)
    requires total >= 1
    ensures var parts := SplitOn(MultiRange(total, maxRows, start), ' ');
      && |parts| == total
      && forall k :: 0 <= k < total ==>
           parts[k] == ColumnName(start + 7 * k) + "6:" + ColumnName(start + 7 * k) + Decimal(5 + maxRows)
  {
    var ranges := Ranges(total, maxRows, start);
    forall k | 0 <= k < total ensures ' ' !in ranges[k] {
      RangesAt(total, maxRows, start, k);
    }
    SplitOnJoin(ranges, ' ');
    forall k | 0 <= k < total
      ensures ranges[k] == ColumnName(start + 7 * k) + "6:" + ColumnName(start + 7 * k) + Decimal(5 + maxRows)
    {
      RangesAt(total, maxRows, start, k);
    }
  }

  // The multi-range as written: the letters of `ColumnCodesAsWritten`, as code points.

  /** A range's code points, from the code points of its letters. */
  function RangeCodes(letters: seq<int>, maxRows: nat): seq<int> {
    letters + Codes(Decimal(FirstRangeRow) + ":") + letters + Codes(Decimal(FirstRangeRow + maxRows - 1))
  }

  /** `sep.join(parts)` on code points. */
  function JoinCodes(sep: int, parts: seq<seq<int>>): seq<int>
    decreases |parts|
  {
    if |parts| == 0 then []
    else if |parts| == 1 then parts[0]
    else parts[0] + [sep] + JoinCodes(sep, parts[1..])
  }

  /** The ranges `_xlsx_create_multi_range` builds, from the letters its loop computes. */
  function RangesAsWritten(total: nat, maxRows: nat, start: nat): (r: seq<seq<int>>)
    ensures |r| == total
  {
    seq(total, k requires 0 <= k < total => RangeCodes(ColumnCodesAsWritten(start + 7 * k), maxRows))
  }

  /** The text `_xlsx_create_multi_range` returns, as code points. */
  function MultiRangeAsWritten(total: nat, maxRows: nat, start: nat): seq<int> {
    JoinCodes(' ' as int, RangesAsWritten(total, maxRows, start))
  }

  lemma {:induction false} CodesConcat(a: string, b: string)
    ensures Codes(a + b) == Codes(a) + Codes(b)
  {
  }

  /** The code points of a joined text are the joined code points of its parts. */
  lemma {:induction false} CodesJoin(c: char, parts: seq<string>, codes: seq<seq<int>>)
    requires |codes| == |parts| && forall k :: 0 <= k < |parts| ==> codes[k] == Codes(parts[k])
    ensures Codes(Join([c], parts)) == JoinCodes(c as int, codes)
    decreases |parts|
  {
    if |parts| > 1 {
      CodesJoin(c, parts[1..], codes[1..]);
      CodesConcat(parts[0] + [c], Join([c], parts[1..]));
      CodesConcat(parts[0], [c]);
    }
  }

  /** One range of the source's text, against the corrected range of the same column. */
  lemma {:induction false} RangeCodesOf(i: nat, maxRows: nat)
    ensures Codes(RangeOf(ColumnName(i), maxRows))
            == RangeCodes(Codes(ColumnName(i)), maxRows)
  {
    var n := ColumnName(i);
    CodesConcat(n + Decimal(FirstRangeRow) + ":" + n, Decimal(FirstRangeRow + maxRows - 1));
    CodesConcat(n + Decimal(FirstRangeRow) + ":", n);
    CodesConcat(n, Decimal(FirstRangeRow) + ":");
    assert n + Decimal(FirstRangeRow) + ":" == n + (Decimal(FirstRangeRow) + ":");
  }

  /** While every column index stays below 702 the source's text is the corrected multi-range. */
  lemma {:induction false} MultiRangeAsWrittenAgrees(total: nat, maxRows: nat, start: nat)
    requires start + 7 * total <= 702
    ensures MultiRangeAsWritten(total, maxRows, start) == Codes(MultiRange(total, maxRows, start))
  {
    var ranges := Ranges(total, maxRows, start);
    var codes := RangesAsWritten(total, maxRows, start);
    forall k | 0 <= k < total ensures codes[k] == Codes(ranges[k]) {
      ModelColumnNamesAt(total, start, k);
      ColumnCodesAgree(start + 7 * k);
      RangeCodesOf(start + 7 * k, maxRows);
    }
    CodesJoin(' ', ranges, codes);
  }

  /** Joined parts without the separator are told apart by the joined text. */
  lemma {:induction false} JoinCodesInjective(sep: int, a: seq<seq<int>>, b: seq<seq<int>>)
    requires |a| == |b|
    requires forall k :: 0 <= k < |a| ==> sep !in a[k] && sep !in b[k]
    requires JoinCodes(sep, a) == JoinCodes(sep, b)
    ensures a == b
    decreases |a|
  {
    if |a| > 1 {
      var ja, jb := JoinCodes(sep, a), JoinCodes(sep, b);
      JoinCodesFirst(sep, a);
      JoinCodesFirst(sep, b);
      assert a[0] == ja[..|a[0]|] && b[0] == jb[..|b[0]|];
      assert JoinCodes(sep, a[1..]) == ja[|a[0]| + 1..] && JoinCodes(sep, b[1..]) == jb[|b[0]| + 1..];
      JoinCodesInjective(sep, a[1..], b[1..]);
      assert a == [a[0]] + a[1..] && b == [b[0]] + b[1..];
    }
  }

  /** The position of the first `sep` in `s`, or `|s|` when there is none. */
  function IndexOfSep(sep: int, s: seq<int>): (i: nat)
    ensures i <= |s|
    decreases |s|
  {
    if |s| == 0 || s[0] == sep then 0 else 1 + IndexOfSep(sep, s[1..])
  }

  lemma {:induction false} IndexOfSepAfter(sep: int, p: seq<int>, rest: seq<int>)
    requires sep !in p
    ensures IndexOfSep(sep, p + [sep] + rest) == |p|
    decreases |p|
  {
    if |p| > 0 {
      assert (p + [sep] + rest)[1..] == p[1..] + [sep] + rest;
      IndexOfSepAfter(sep, p[1..], rest);
    }
  }

  /** The first part of a joined text ends at its first separator. */
  lemma {:induction false} JoinCodesFirst(sep: int, parts: seq<seq<int>>)
    requires |parts| > 1 && sep !in parts[0]
    ensures IndexOfSep(sep, JoinCodes(sep, parts)) == |parts[0]|
  {
    IndexOfSepAfter(sep, parts[0], JoinCodes(sep, parts[1..]));
  }

  /** The 101st model from column F (index 705) gets the letters "[D" where its column is
      named "AAD": for 101 models or more the source's text is not the corrected multi-range. */
  lemma {:induction false} MultiRangeAsWrittenWrong(total: nat, maxRows: nat)
    requires total >= 101
    ensures MultiRangeAsWritten(total, maxRows, 5) != Codes(MultiRange(total, maxRows, 5))
  {
    var ranges := Ranges(total, maxRows, 5);
    var codes := seq(total, k requires 0 <= k < total => Codes(ranges[k]));
    var written := RangesAsWritten(total, maxRows, 5);
    CodesJoin(' ', ranges, codes);
    NoSpaceParts(total, maxRows, 5, codes);
    FirstLetterDiffers(total, maxRows);
    assert codes[100][0] == ranges[100][0] as int;
    if MultiRangeAsWritten(total, maxRows, 5) == Codes(MultiRange(total, maxRows, 5)) {
      JoinCodesInjective(' ' as int, written, codes);
      assert false;
    }
  }

  /** No range of either text holds a space. */
  lemma {:induction false} NoSpaceParts(total: nat, maxRows: nat, start: nat, codes: seq<seq<int>>)
    requires |codes| == total && forall k :: 0 <= k < total ==> codes[k] == Codes(Ranges(total, maxRows, start)[k])
    ensures forall k :: 0 <= k < total ==>
      ' ' as int !in RangesAsWritten(total, maxRows, start)[k] && ' ' as int !in codes[k]
  {
    forall k | 0 <= k < total
      ensures ' ' as int !in RangesAsWritten(total, maxRows, start)[k] && ' ' as int !in codes[k]
    {
      RangesAt(total, maxRows, start, k);
      RangeNoSpaceAsWritten(start + 7 * k, maxRows);
    }
  }

  /** Column index 705, the 101st model's from column F: "[" against "A". */
  lemma {:induction false} FirstLetterDiffers(total: nat, maxRows: nat)
    requires total >= 101
    ensures |RangesAsWritten(total, maxRows, 5)[100]| > 0 && RangesAsWritten(total, maxRows, 5)[100][0] == '[' as int
    ensures |Ranges(total, maxRows, 5)[100]| > 0 && Ranges(total, maxRows, 5)[100][0] == 'A'
  {
    var letters := ColumnCodesAsWritten(705);
    assert letters == [91, 68];
    assert RangesAsWritten(total, maxRows, 5)[100] == RangeCodes(letters, maxRows);
    var name := ColumnName(705);
    assert name == ColumnName(26) + ['D'];
    assert ColumnName(26) == ColumnName(0) + ['A'];
    RangesAt(total, maxRows, 5, 100);
    var r := Ranges(total, maxRows, 5)[100];
    assert r == name + ("6:" + name + Decimal(5 + maxRows));
  }

  /** The source's letters are never a space. */
  lemma {:induction false} RangeNoSpaceAsWritten(i: nat, maxRows: nat)
    ensures ' ' as int !in RangeCodes(ColumnCodesAsWritten(i), maxRows)
  {
    var letters := ColumnCodesAsWritten(i);
    var d := Decimal(FirstRangeRow + maxRows - 1);
    var r := RangeCodes(letters, maxRows);
    forall j | 0 <= j < |r| ensures r[j] != ' ' as int {
      var m := |letters| + 2;
      if j >= 2 * |letters| + 2 {
        assert r[j] == d[j - m - |letters|] as int;
      }
    }
  }

  lemma {:induction false} NoSpaceInRange(letters: string, d: string)
    requires forall k :: 0 <= k < |letters| ==> 'A' <= letters[k] <= 'Z'
    requires AllDigits(d)
    ensures ' ' !in letters + "6:" + letters + d
  {
    var s := letters + "6:" + letters + d;
    forall j | 0 <= j < |s| ensures s[j] != ' ' {
      if j >= 2 * |letters| + 2 {
        assert s[j] == d[j - 2 * |letters| - 2];
      }
    }
  }

  // ---------------------------------------------------------------------------------------
  // The worksheet

  /** A cell's value: a float, an integer, or `None`. */
  datatype Cell = Number(x: real) | Integer(n: int) | Blank

  /** The formats the cells are written with: the bold bordered label format, shaded or not;
      the bordered "0.000" and "#,##0" number formats; and a bare border. */
  datatype Style = LabelShaded | LabelPlain | FloatFormat | IntFormat | BlankBorder

  /** `excel_sheet.write(row, col, value, format)`, rows and columns from 0. */
  datatype CellWrite = CellWrite(row: int, col: int, value: Cell, style: Style)

  /** The worksheet, as the writes made to it in order. */
  class Sheet {
    var writes: seq<CellWrite>

    constructor ()
      ensures writes == []
    {
      writes := [];
    }

    method Write(row: int, col: int, value: Cell, style: Style)
      modifies this
      ensures writes == old(writes) + [CellWrite(row, col, value, style)]
    {
      writes := writes + [CellWrite(row, col, value, style)];
    }
  }

  /** The data rows start below five header rows. */
  const FirstDataRow: nat := 5

  // ---------------------------------------------------------------------------------------
  // `_xlsx_add_year_quarter_rows`

  /** `year_quarter_formats[year % 2]`: years of even number are shaded. */
  function LabelStyle(year: int): Style {
    if year % 2 == 0 then LabelShaded else LabelPlain
  }

  /** The two label cells of data row `i`. */
  function LabelWrites(i: nat): seq<CellWrite> {
    var (year, quarter) := DisplayLabel(i);
    [CellWrite(FirstDataRow + i, 0, Integer(year), LabelStyle(year)),
     CellWrite(FirstDataRow + i, 1, Integer(quarter), LabelStyle(year))]
  }

  /** The label cells of the first `n` data rows, row by row. */
  function YearQuarterWrites(n: nat): (r: seq<CellWrite>)
    ensures |r| == 2 * n
  {
    if n == 0 then [] else YearQuarterWrites(n - 1) + LabelWrites(n - 1)
  }

  /** `_xlsx_add_year_quarter_rows`: a year and a quarter counter, the quarter rolling over to
      the next year after 4. */
  method AddYearQuarterRows(n: nat, sheet: Sheet)
    modifies sheet
    ensures sheet.writes == old(sheet.writes) + YearQuarterWrites(n)
  {
    var year, quarter := 1, 1;
    for row := 0 to n
      invariant sheet.writes == old(sheet.writes) + YearQuarterWrites(row)
      invariant year == row / 4 + 1 && quarter == row % 4 + 1
    {
      sheet.Write(row + 5, 0, Integer(year), LabelStyle(year));
      sheet.Write(row + 5, 1, Integer(quarter), LabelStyle(year));
      quarter := quarter + 1;
      if quarter == 5 {
        year := year + 1;
        quarter := 1;
      }
    }
  }

  /** Data row `i` is labelled year `i / 4 + 1` and quarter `i % 4 + 1`, in columns 0 and 1,
      shaded when the year is even. */
  lemma {:induction false} YearQuarterCells(n: nat, i: nat)
    requires i < n
    ensures YearQuarterWrites(n)[2 * i]
            == CellWrite(FirstDataRow + i, 0, Integer(i / 4 + 1), LabelStyle(i / 4 + 1))
    ensures YearQuarterWrites(n)[2 * i + 1]
            == CellWrite(FirstDataRow + i, 1, Integer(i % 4 + 1), LabelStyle(i / 4 + 1))
    decreases n
  {
    if i < n - 1 {
      YearQuarterCells(n - 1, i);
    }
  }

  // ---------------------------------------------------------------------------------------
  // `_xlsx_add_data_rows`

  /** The seven cells of one entry in data row `row` from column `col`: the AFR and its change
      from `prevAfr`, the drives deployed and their change from `prevDeployed`, then the new,
      the removed and the failed drives. */
  function EntryCells(e: VizEntry, prevAfr: real, prevDeployed: int, row: int, col: int): (r: seq<CellWrite>)
    ensures |r| == 7
  {
    [CellWrite(row, col, Number(e.afr), FloatFormat),
     CellWrite(row, col + 1, Number(e.afr - prevAfr), FloatFormat),
     CellWrite(row, col + 2, Integer(e.deployed), IntFormat),
     CellWrite(row, col + 3, Integer(e.deployed - prevDeployed), IntFormat),
     CellWrite(row, col + 4, Integer(e.newDrives), IntFormat),
     CellWrite(row, col + 5, Integer(e.removedDrives), IntFormat),
     CellWrite(row, col + 6, Integer(e.failures), IntFormat)]
  }

  /** The cells of the entries, one row each from `row`, each entry compared with the one
      before it (the first with `prevAfr` and `prevDeployed`). */
  function EntryRows(es: seq<VizEntry>, prevAfr: real, prevDeployed: int, row: int, col: int)
    : (r: seq<CellWrite>)
    ensures |r| == 7 * |es|
    decreases |es|
  {
    if |es| == 0 then []
    else EntryCells(es[0], prevAfr, prevDeployed, row, col)
         + EntryRows(es[1..], es[0].afr, es[0].deployed, row + 1, col)
  }

  /** Seven bordered blank cells of row `row` from column `col`. */
  function BlankRow(row: int, col: int): (r: seq<CellWrite>)
    ensures |r| == 7
  {
    seq(7, k requires 0 <= k < 7 => CellWrite(row, col + k, Blank, BlankBorder))
  }

  /** Blank rows from `from` up to, not including, `to`. */
  function BlankRows(from: int, to: int, col: int): (r: seq<CellWrite>)
    ensures |r| == (if from < to then 7 * (to - from) else 0)
    decreases if from < to then to - from else 0
  {
    if from >= to then [] else BlankRow(from, col) + BlankRows(from + 1, to, col)
  }

  /** The columns of one model: a row per entry from the first data row, the first entry
      compared with AFR 0.0 and 0 drives, then blank rows down to data row `maxRows`. */
  function ModelBlock(es: seq<VizEntry>, maxRows: nat, col: int): seq<CellWrite> {
    EntryRows(es, 0.0, 0, FirstDataRow, col) + BlankRows(FirstDataRow + |es|, FirstDataRow + maxRows, col)
  }

  /** One model's list, consumed from the front, then the padding. The list comes back empty,
      as the `pop(0)` loop leaves it. */
  method WriteModel(es: seq<VizEntry>, maxRows: nat, col: int, sheet: Sheet) returns (rest: seq<VizEntry>)
    modifies sheet
    ensures rest == []
    ensures sheet.writes == old(sheet.writes) + ModelBlock(es, maxRows, col)
  {
    ghost var start := sheet.writes;
    rest := WriteEntries(es, col, sheet);
    ghost var mid := sheet.writes;
    WritePadding(FirstDataRow + |es|, FirstDataRow + maxRows, col, sheet);
    assert sheet.writes == start + EntryRows(es, 0.0, 0, FirstDataRow, col)
                          + BlankRows(FirstDataRow + |es|, FirstDataRow + maxRows, col);
  }

  /** The entries, consumed from the front, one data row each. */
  method WriteEntries(es: seq<VizEntry>, col: int, sheet: Sheet) returns (rest: seq<VizEntry>)
    modifies sheet
    ensures rest == []
    ensures sheet.writes == old(sheet.writes) + EntryRows(es, 0.0, 0, FirstDataRow, col)
  {
    rest := es;
    var prevAfr, prevDeployed := 0.0, 0;
    var row := FirstDataRow;
    while |rest| > 0
      invariant row == FirstDataRow + |es| - |rest|
      invariant sheet.writes + EntryRows(rest, prevAfr, prevDeployed, row, col)
                == old(sheet.writes) + EntryRows(es, 0.0, 0, FirstDataRow, col)
      decreases |rest|
    {
      var e := rest[0];
      ghost var before := sheet.writes;
      ghost var after := EntryRows(rest[1..], e.afr, e.deployed, row + 1, col);
      rest := rest[1..];
      WriteEntry(e, prevAfr, prevDeployed, row, col, sheet);
      assert sheet.writes + after == before + (EntryCells(e, prevAfr, prevDeployed, row, col) + after);
      prevAfr, prevDeployed := e.afr, e.deployed;
      row := row + 1;
    }
    assert EntryRows(rest, prevAfr, prevDeployed, row, col) == [];
  }

  /** Bordered blank rows from `from` up to, not including, `to`. */
  method WritePadding(from: int, to: int, col: int, sheet: Sheet)
    modifies sheet
    ensures sheet.writes == old(sheet.writes) + BlankRows(from, to, col)
  {
    var row := from;
    while row < to
      invariant sheet.writes + BlankRows(row, to, col) == old(sheet.writes) + BlankRows(from, to, col)
      decreases if row < to then to - row else 0
    {
      ghost var before := sheet.writes;
      ghost var after := BlankRows(row + 1, to, col);
      for offset := 0 to ColumnsPerModel
        invariant sheet.writes == before + BlankRow(row, col)[..offset]
      {
        sheet.Write(row, col + offset, Blank, BlankBorder);
        assert BlankRow(row, col)[..offset + 1] == BlankRow(row, col)[..offset] + [BlankRow(row, col)[offset]];
      }
      assert BlankRow(row, col)[..7] == BlankRow(row, col);
      assert sheet.writes + after == before + (BlankRow(row, col) + after);
      row := row + 1;
    }
    assert BlankRows(row, to, col) == [];
  }

  /** The seven writes of one entry. */
  method WriteEntry(e: VizEntry, prevAfr: real, prevDeployed: int, row: int, col: int, sheet: Sheet)
    modifies sheet
    ensures sheet.writes == old(sheet.writes) + EntryCells(e, prevAfr, prevDeployed, row, col)
  {
    sheet.Write(row, col, Number(e.afr), FloatFormat);
    sheet.Write(row, col + 1, Number(e.afr - prevAfr), FloatFormat);
    sheet.Write(row, col + 2, Integer(e.deployed), IntFormat);
    var deployDelta := e.deployed - prevDeployed;
    sheet.Write(row, col + 3, Integer(deployDelta), IntFormat);
    sheet.Write(row, col + 4, Integer(e.newDrives), IntFormat);
    sheet.Write(row, col + 5, Integer(e.removedDrives), IntFormat);
    sheet.Write(row, col + 6, Integer(e.failures), IntFormat);
  }

  /** Entry `k` fills row `row + k`, compared with entry `k - 1` (the first with the values
      given). */
  lemma {:induction false} EntryRowsAt(es: seq<VizEntry>, prevAfr: real, prevDeployed: int, row: int, col: int, k: nat)
    requires k < |es|
    ensures EntryRows(es, prevAfr, prevDeployed, row, col)[7 * k .. 7 * k + 7]
            == EntryCells(es[k], if k == 0 then prevAfr else es[k - 1].afr,
                          if k == 0 then prevDeployed else es[k - 1].deployed, row + k, col)
    decreases k
  {
    var r := EntryRows(es, prevAfr, prevDeployed, row, col);
    var head := EntryCells(es[0], prevAfr, prevDeployed, row, col);
    var tail := EntryRows(es[1..], es[0].afr, es[0].deployed, row + 1, col);
    assert r == head + tail;
    if k > 0 {
      EntryRowsAt(es[1..], es[0].afr, es[0].deployed, row + 1, col, k - 1);
      assert r[7 * k .. 7 * k + 7] == tail[7 * (k - 1) .. 7 * (k - 1) + 7];
    } else {
      assert r[..7] == head;
    }
  }

  /** Cell `k` of the padding is blank, in row `from + k / 7` and column `col + k % 7`. */
  lemma {:induction false} BlankRowsAt(from: int, to: int, col: int, k: nat)
    requires k < 7 * (to - from)
    ensures BlankRows(from, to, col)[k] == CellWrite(from + k / 7, col + k % 7, Blank, BlankBorder)
    decreases k
  {
    if k >= 7 {
      BlankRowsAt(from + 1, to, col, k - 7);
      assert BlankRows(from, to, col)[k] == BlankRows(from + 1, to, col)[k - 7];
    }
  }

  /** A model with at most `maxRows` entries fills the grid of data rows `0 .. maxRows - 1` by
      seven columns from `col` once, row by row, left to right. */
  lemma {:induction false} ModelBlockGrid(es: seq<VizEntry>, maxRows: nat, col: int)
    requires |es| <= maxRows
    ensures |ModelBlock(es, maxRows, col)| == 7 * maxRows
    ensures forall k :: 0 <= k < 7 * maxRows ==>
              ModelBlock(es, maxRows, col)[k].row == FirstDataRow + k / 7
              && ModelBlock(es, maxRows, col)[k].col == col + k % 7
  {
    forall k | 0 <= k < 7 * maxRows
      ensures ModelBlock(es, maxRows, col)[k].row == FirstDataRow + k / 7
      ensures ModelBlock(es, maxRows, col)[k].col == col + k % 7
    {
      ModelBlockCell(es, maxRows, col, k, k / 7, k % 7);
    }
  }

  /** Cell `k` of a model's block, in row `q` and column `r` of the grid, `k = 7 q + r`. */
  lemma {:induction false} ModelBlockCell(es: seq<VizEntry>, maxRows: nat, col: int, k: nat, q: nat, r: nat)
    requires |es| <= maxRows && k < 7 * maxRows && q == k / 7 && r == k % 7
    ensures ModelBlock(es, maxRows, col)[k].row == FirstDataRow + q
    ensures ModelBlock(es, maxRows, col)[k].col == col + r
  {
    var n := 7 * |es|;
    var entries := EntryRows(es, 0.0, 0, FirstDataRow, col);
    var pad := BlankRows(FirstDataRow + |es|, FirstDataRow + maxRows, col);
    assert ModelBlock(es, maxRows, col) == entries + pad;
    if k < n {
      assert q < |es|;
      EntryRowsAt(es, 0.0, 0, FirstDataRow, col, q);
      assert entries[k] == entries[7 * q .. 7 * q + 7][r];
    } else {
      BlankRowsAt(FirstDataRow + |es|, FirstDataRow + maxRows, col, k - n);
      assert (k - n) / 7 == q - |es| && (k - n) % 7 == r;
    }
  }

  // ---------------------------------------------------------------------------------------
  // Every model in turn: `_xlsx_add_data_rows`, `_get_total_model_count`,
  // `_get_max_data_row_count`

  /** The column of the first model's block. */
  const FirstModelColumn: nat := 2

  /** A manufacturer paired with each of the models listed. */
  function PairsWith(mfr: string, models: seq<string>): (r: seq<(string, string)>)
    ensures |r| == |models| && forall k :: 0 <= k < |r| ==> r[k] == (mfr, models[k])
  {
    seq(|models|, k requires 0 <= k < |models| => (mfr, models[k]))
  }

  lemma {:induction false} PairsWithSnoc(mfr: string, models: seq<string>, j: nat)
    requires j < |models|
    ensures PairsWith(mfr, models[..j + 1]) == PairsWith(mfr, models[..j]) + [(mfr, models[j])]
  {
    var a := PairsWith(mfr, models[..j + 1]);
    var b := PairsWith(mfr, models[..j]) + [(mfr, models[j])];
    assert |a| == |b|;
    forall k | 0 <= k < |a| ensures a[k] == b[k] {
      if k < j {
        assert a[k] == (mfr, models[k]);
      }
    }
  }

  /** The (manufacturer, model) pairs in the order the nested loops over the manufacturers
      listed and, within each, over its sorted models visit them. */
  function ModelPairs(data: VizData, mfrs: seq<string>): (r: seq<(string, string)>)
    requires forall k :: 0 <= k < |mfrs| ==> mfrs[k] in data
    ensures forall k :: 0 <= k < |r| ==> r[k].0 in data && r[k].1 in data[r[k].0]
    decreases |mfrs|
  {
    if |mfrs| == 0 then []
    else
      var mfr := mfrs[|mfrs| - 1];
      ModelPairs(data, mfrs[..|mfrs| - 1]) + PairsWith(mfr, Sorted(data[mfr].Keys))
  }

  /** The pairs visited are exactly the models of the manufacturers listed. */
  lemma {:induction false} ModelPairsExact(data: VizData, mfrs: seq<string>)
    requires forall k :: 0 <= k < |mfrs| ==> mfrs[k] in data
    ensures forall m, x :: (m, x) in ModelPairs(data, mfrs) <==> m in mfrs && m in data && x in data[m]
    decreases |mfrs|
  {
    if |mfrs| > 0 {
      var init := mfrs[..|mfrs| - 1];
      var mfr := mfrs[|mfrs| - 1];
      var head := ModelPairs(data, init);
      var tail := PairsWith(mfr, Sorted(data[mfr].Keys));
      ModelPairsExact(data, init);
      PairsWithSorted(mfr, data[mfr].Keys);
      assert mfrs == init + [mfr];
      assert ModelPairs(data, mfrs) == head + tail;
      forall m, x ensures (m, x) in head + tail <==> m in mfrs && m in data && x in data[m] {
        assert (m, x) in head + tail <==> (m, x) in head || (m, x) in tail;
        assert m in mfrs <==> m in init || m == mfr;
      }
    }
  }

  /** A manufacturer paired with its sorted models lists each of them. */
  lemma {:induction false} PairsWithSorted(mfr: string, models: set<string>)
    ensures forall m, x :: (m, x) in PairsWith(mfr, Sorted(models)) <==> m == mfr && x in models
  {
    var names := Sorted(models);
    forall m, x ensures (m, x) in PairsWith(mfr, names) <==> m == mfr && x in models {
      if m == mfr && x in models {
        var k :| 0 <= k < |names| && names[k] == x;
        assert PairsWith(mfr, names)[k] == (m, x);
      }
    }
  }

  /** Over distinct manufacturers no pair is visited twice. */
  lemma {:induction false} ModelPairsDistinct(data: VizData, mfrs: seq<string>)
    requires forall k :: 0 <= k < |mfrs| ==> mfrs[k] in data
    requires Distinct(mfrs)
    ensures forall a, b :: 0 <= a < b < |ModelPairs(data, mfrs)| ==> ModelPairs(data, mfrs)[a] != ModelPairs(data, mfrs)[b]
    decreases |mfrs|
  {
    if |mfrs| > 0 {
      var init := mfrs[..|mfrs| - 1];
      var mfr := mfrs[|mfrs| - 1];
      var head := ModelPairs(data, init);
      var models := Sorted(data[mfr].Keys);
      var tail := PairsWith(mfr, models);
      var r := head + tail;
      ModelPairsDistinct(data, init);
      ModelPairsExact(data, init);
      SortedDistinct(data[mfr].Keys);
      forall a, b | 0 <= a < b < |r| ensures r[a] != r[b] {
        if b >= |head| {
          if a >= |head| {
            assert models[a - |head|] != models[b - |head|];
          } else {
            assert r[a] in head;
            assert mfr !in init by {
              forall k | 0 <= k < |init| ensures init[k] != mfr {
                assert mfrs[k] != mfrs[|mfrs| - 1];
              }
            }
          }
        }
      }
    }
  }

  /** The blocks of the pairs listed, the `k`-th seven columns right of the `(k - 1)`-th from
      column `col`. */
  function Blocks(data: VizData, pairs: seq<(string, string)>, maxRows: nat, col: int): seq<CellWrite>
    requires InData(data, pairs)
    decreases |pairs|
  {
    if |pairs| == 0 then []
    else
      var n := |pairs| - 1;
      Blocks(data, pairs[..n], maxRows, col)
        + ModelBlock(data[pairs[n].0][pairs[n].1], maxRows, col + ColumnsPerModel * n)
  }

  /** The data rows of every model, manufacturers and models in sorted order, from column C. */
  function DataWrites(data: VizData, maxRows: nat): seq<CellWrite> {
    Blocks(data, ModelPairs(data, Sorted(data.Keys)), maxRows, FirstModelColumn)
  }

  /** With every list at most `maxRows` long, the blocks of the pairs listed stay inside the
      grid of data rows `0 .. maxRows - 1` and seven columns per pair from `col`. */
  lemma {:induction false} BlocksInGrid(data: VizData, pairs: seq<(string, string)>, maxRows: nat, col: int)
    requires InData(data, pairs)
    requires forall j :: 0 <= j < |pairs| ==> |data[pairs[j].0][pairs[j].1]| <= maxRows
    ensures forall t :: 0 <= t < |Blocks(data, pairs, maxRows, col)| ==>
              col <= Blocks(data, pairs, maxRows, col)[t].col < col + ColumnsPerModel * |pairs|
              && FirstDataRow <= Blocks(data, pairs, maxRows, col)[t].row < FirstDataRow + maxRows
    decreases |pairs|
  {
    if |pairs| > 0 {
      var n := |pairs| - 1;
      var c := col + ColumnsPerModel * n;
      var head := Blocks(data, pairs[..n], maxRows, col);
      var last := ModelBlock(data[pairs[n].0][pairs[n].1], maxRows, c);
      BlocksInGrid(data, pairs[..n], maxRows, col);
      ModelBlockGrid(data[pairs[n].0][pairs[n].1], maxRows, c);
      var all := head + last;
      forall t | 0 <= t < |all|
        ensures col <= all[t].col < col + ColumnsPerModel * |pairs|
        ensures FirstDataRow <= all[t].row < FirstDataRow + maxRows
      {
        if t >= |head| {
          assert all[t] == last[t - |head|];
        }
      }
    }
  }

  /** Sized by `_get_total_model_count` and `_get_max_data_row_count`, the data rows fill
      columns C on, seven per model, and the data rows below the headers, no further. */
  lemma {:induction false} DataWritesInGrid(data: VizData, maxRows: nat)
    requires forall m, x :: m in data && x in data[m] ==> |data[m][x]| <= maxRows
    ensures forall t :: 0 <= t < |DataWrites(data, maxRows)| ==>
              FirstModelColumn <= DataWrites(data, maxRows)[t].col
                < FirstModelColumn + ColumnsPerModel * |ModelPairs(data, Sorted(data.Keys))|
              && FirstDataRow <= DataWrites(data, maxRows)[t].row < FirstDataRow + maxRows
  {
    BlocksInGrid(data, ModelPairs(data, Sorted(data.Keys)), maxRows, FirstModelColumn);
  }

  /** The distinct elements of a sequence number as many as its places. */
  lemma {:induction false} DistinctCount<T>(s: seq<T>)
    requires forall a, b :: 0 <= a < b < |s| ==> s[a] != s[b]
    ensures |(set k | 0 <= k < |s| :: s[k])| == |s|
    decreases |s|
  {
    if |s| > 0 {
      var n := |s| - 1;
      var init := s[..n];
      DistinctCount(init);
      var a := set k | 0 <= k < n :: init[k];
      assert (set k | 0 <= k < |s| :: s[k]) == a + {s[n]} by {
        forall x ensures x in (set k | 0 <= k < |s| :: s[k]) <==> x in a + {s[n]} {
          if x in a {
            var k :| 0 <= k < n && init[k] == x;
            assert s[k] == x;
          }
        }
      }
      assert s[n] !in a;
    }
  }

  /** `_get_total_model_count` counts every (manufacturer, model) pair of the map once. */
  lemma {:induction false} ModelCountIsPairs(data: VizData)
    ensures |ModelPairs(data, Sorted(data.Keys))| == |set m, x | m in data && x in data[m] :: (m, x)|
  {
    var mfrs := Sorted(data.Keys);
    var pairs := ModelPairs(data, mfrs);
    SortedDistinct(data.Keys);
    ModelPairsExact(data, mfrs);
    ModelPairsDistinct(data, mfrs);
    ListingCount(data, pairs);
  }

  /** A listing of the pairs of the map with none twice is as long as there are pairs. */
  lemma {:induction false} ListingCount(data: VizData, pairs: seq<(string, string)>)
    requires forall a, b :: 0 <= a < b < |pairs| ==> pairs[a] != pairs[b]
    requires forall m, x :: (m, x) in pairs <==> m in data && x in data[m]
    ensures |pairs| == |set m, x | m in data && x in data[m] :: (m, x)|
  {
    DistinctCount(pairs);
    var listed := set k | 0 <= k < |pairs| :: pairs[k];
    assert listed == set m, x | m in data && x in data[m] :: (m, x) by {
      forall p | p in listed ensures p.0 in data && p.1 in data[p.0] {
        var k :| 0 <= k < |pairs| && pairs[k] == p;
        assert (p.0, p.1) in pairs;
      }
      forall m, x | m in data && x in data[m] ensures (m, x) in listed {
        var k :| 0 <= k < |pairs| && pairs[k] == (m, x);
      }
    }
  }

  /** One more pair visited writes its block after the others'. */
  lemma {:induction false} BlocksSnoc(data: VizData, pairs: seq<(string, string)>, p: (string, string), maxRows: nat, col: int)
    requires InData(data, pairs)
    requires p.0 in data && p.1 in data[p.0]
    ensures Blocks(data, pairs + [p], maxRows, col)
            == Blocks(data, pairs, maxRows, col) + ModelBlock(data[p.0][p.1], maxRows, col + ColumnsPerModel * |pairs|)
  {
    assert (pairs + [p])[..|pairs|] == pairs;
  }

  /** The nested loops: each model's block, seven columns further right each time, from
      column C. */
  method AddDataRows(data: VizData, maxRows: nat, sheet: Sheet)
    modifies sheet
    ensures sheet.writes == old(sheet.writes) + DataWrites(data, maxRows)
  {
    AddMfrsInOrder(data, Sorted(data.Keys), maxRows, sheet);
  }

  /** The outer loop, over the manufacturers listed. */
  method AddMfrsInOrder(data: VizData, mfrs: seq<string>, maxRows: nat, sheet: Sheet)
    requires forall k :: 0 <= k < |mfrs| ==> mfrs[k] in data
    modifies sheet
    ensures sheet.writes == old(sheet.writes) + Blocks(data, ModelPairs(data, mfrs), maxRows, FirstModelColumn)
  {
    ghost var done: seq<(string, string)> := [];
    var col := FirstModelColumn;
    var i := 0;
    while i < |mfrs|
      invariant 0 <= i <= |mfrs|
      invariant done == ModelPairs(data, mfrs[..i])
      invariant col == FirstModelColumn + ColumnsPerModel * |done|
      invariant sheet.writes == old(sheet.writes) + Blocks(data, done, maxRows, FirstModelColumn)
    {
      var models := Sorted(data[mfrs[i]].Keys);
      ModelPairsStep(data, mfrs, i, models);
      col := AddMfrRows(data, mfrs[i], models, maxRows, col, done, old(sheet.writes), sheet);
      done := done + PairsWith(mfrs[i], models);
      i := i + 1;
    }
    assert mfrs[..i] == mfrs;
  }

  /** One more manufacturer visits its models in sorted order. */
  lemma {:induction false} ModelPairsStep(data: VizData, mfrs: seq<string>, i: nat, models: seq<string>)
    requires i < |mfrs| && forall k :: 0 <= k < |mfrs| ==> mfrs[k] in data
    requires models == Sorted(data[mfrs[i]].Keys)
    ensures forall k :: 0 <= k < |models| ==> models[k] in data[mfrs[i]]
    ensures ModelPairs(data, mfrs[..i + 1]) == ModelPairs(data, mfrs[..i]) + PairsWith(mfrs[i], models)
  {
    assert mfrs[..i + 1][..i] == mfrs[..i];
  }

  /** The inner loop: the models of one manufacturer, in the order listed. */
  method AddMfrRows(data: VizData, mfr: string, models: seq<string>, maxRows: nat, col: int,
                    ghost done: seq<(string, string)>, ghost base: seq<CellWrite>, sheet: Sheet)
    returns (next: int)
    requires mfr in data && forall k :: 0 <= k < |models| ==> models[k] in data[mfr]
    requires InData(data, done)
    requires col == FirstModelColumn + ColumnsPerModel * |done|
    requires sheet.writes == base + Blocks(data, done, maxRows, FirstModelColumn)
    modifies sheet
    ensures next == col + ColumnsPerModel * |models|
    ensures sheet.writes == base + Blocks(data, done + PairsWith(mfr, models), maxRows, FirstModelColumn)
  {
    next := col;
    var j := 0;
    assert done + PairsWith(mfr, models[..0]) == done;
    while j < |models|
      invariant 0 <= j <= |models|
      invariant next == col + ColumnsPerModel * j
      invariant MfrSoFar(data, mfr, models, done, j, maxRows, base, sheet.writes)
    {
      ghost var before := sheet.writes;
      var drained := WriteModel(data[mfr][models[j]], maxRows, next, sheet);
      MfrStep(data, mfr, models, done, j, maxRows, next, base, before, sheet.writes);
      next := next + ColumnsPerModel;
      j := j + 1;
    }
    assert models[..j] == models;
  }

  /** The inner loop's writes after `j` models: the blocks of the pairs done before it and of
      the first `j` models of this manufacturer. */
  ghost predicate MfrSoFar(data: VizData, mfr: string, models: seq<string>, done: seq<(string, string)>,
                           j: nat, maxRows: nat, base: seq<CellWrite>, writes: seq<CellWrite>)
  {
    j <= |models| && InData(data, done + PairsWith(mfr, models[..j]))
    && writes == base + Blocks(data, done + PairsWith(mfr, models[..j]), maxRows, FirstModelColumn)
  }

  /** Every pair listed names a model of the map. */
  predicate InData(data: VizData, pairs: seq<(string, string)>) {
    forall k :: 0 <= k < |pairs| ==> pairs[k].0 in data && pairs[k].1 in data[pairs[k].0]
  }

  /** One more model of the inner loop writes its block after the others'. */
  lemma {:induction false} MfrStep(data: VizData, mfr: string, models: seq<string>, done: seq<(string, string)>,
                                   j: nat, maxRows: nat, c: int, base: seq<CellWrite>,
                                   writes: seq<CellWrite>, writes': seq<CellWrite>)
    requires mfr in data && InData(data, done)
    requires j < |models| && forall k :: 0 <= k < |models| ==> models[k] in data[mfr]
    requires c == FirstModelColumn + ColumnsPerModel * (|done| + j)
    requires MfrSoFar(data, mfr, models, done, j, maxRows, base, writes)
    requires writes' == writes + ModelBlock(data[mfr][models[j]], maxRows, c)
    ensures MfrSoFar(data, mfr, models, done, j + 1, maxRows, base, writes')
  {
    var now := done + PairsWith(mfr, models[..j]);
    PairsWithSnoc(mfr, models, j);
    assert done + PairsWith(mfr, models[..j + 1]) == now + [(mfr, models[j])];
    BlocksSnoc(data, now, (mfr, models[j]), maxRows, FirstModelColumn);
  }

  /** `_get_total_model_count`: the models of every manufacturer, added up in sorted order. */
  method TotalModelCount(data: VizData) returns (total: nat)
    ensures total == |ModelPairs(data, Sorted(data.Keys))|
  {
    total := CountInOrder(data, Sorted(data.Keys));
  }

  /** The loop over the manufacturers listed. */
  method CountInOrder(data: VizData, mfrs: seq<string>) returns (total: nat)
    requires forall k :: 0 <= k < |mfrs| ==> mfrs[k] in data
    ensures total == |ModelPairs(data, mfrs)|
  {
    total := 0;
    var i := 0;
    while i < |mfrs|
      invariant 0 <= i <= |mfrs|
      invariant total == |ModelPairs(data, mfrs[..i])|
    {
      var models := Sorted(data[mfrs[i]].Keys);
      ModelPairsStep(data, mfrs, i, models);
      assert |models| == |data[mfrs[i]]|;
      total := total + |data[mfrs[i]]|;
      i := i + 1;
    }
    assert mfrs[..i] == mfrs;
  }

  /** `_get_max_data_row_count`: the length of the longest list of entries, 0 when there is
      none. */
  method MaxDataRowCount(data: VizData) returns (longest: nat)
    ensures forall m, x :: m in data && x in data[m] ==> |data[m][x]| <= longest
    ensures longest == 0 || exists m, x :: m in data && x in data[m] && |data[m][x]| == longest
  {
    var mfrs := Sorted(data.Keys);
    longest := 0;
    var i := 0;
    while i < |mfrs|
      invariant 0 <= i <= |mfrs|
      invariant forall k, x :: 0 <= k < i && x in data[mfrs[k]] ==> |data[mfrs[k]][x]| <= longest
      invariant longest == 0 || exists m, x :: m in data && x in data[m] && |data[m][x]| == longest
    {
      longest := LongestOf(data[mfrs[i]], longest);
      i := i + 1;
    }
    forall m, x | m in data && x in data[m] ensures |data[m][x]| <= longest {
      var k :| 0 <= k < |mfrs| && mfrs[k] == m;
    }
  }

  /** The inner loop: `max` of `longest` and the length of each model's list. */
  method LongestOf(models: map<string, seq<VizEntry>>, longest: nat) returns (r: nat)
    ensures longest <= r
    ensures forall x :: x in models ==> |models[x]| <= r
    ensures r == longest || exists x :: x in models && |models[x]| == r
  {
    var names := Sorted(models.Keys);
    r := longest;
    var j := 0;
    while j < |names|
      invariant 0 <= j <= |names|
      invariant longest <= r
      invariant forall k :: 0 <= k < j ==> |models[names[k]]| <= r
      invariant r == longest || exists x :: x in models && |models[x]| == r
    {
      r := if r < |models[names[j]]| then |models[names[j]]| else r;
      j := j + 1;
    }
    forall x | x in models ensures |models[x]| <= r {
      var k :| 0 <= k < |names| && names[k] == x;
    }
  }
}
