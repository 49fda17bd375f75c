/** compute_afr.py: the (regex, family) mappings read from the families JSON, the per-(family,
    date) sums of the drive-stats CSV, and the day-indexed running sums the daily AFR is
    computed from. Dates are day numbers (`date.toordinal()`); the cleaner is `Text.Clean`. */
module ComputeAfr {
  import opened Wrappers
  import opened Order
  import opened Text
  import opened Numerals
  import opened Tallies

  // ---------------------------------------------------------------------------------------
  // `_generate_regex_map`

  /** One `{'regex': ..., 'drive_model_family': ...}` entry. */
  datatype Mapping = Mapping(regex: string, family: string)

  /** The families JSON object: its members in file order, each a family name and its list of
      regular expressions. */
  type FamiliesJson = seq<(string, seq<string>)>

  /** One family's regexes, each paired with the family, in list order. */
  function FamilyMappings(family: string, regexes: seq<string>): (r: seq<Mapping>)
    ensures |r| == |regexes| && forall k :: 0 <= k < |r| ==> r[k] == Mapping(regexes[k], family)
  {
    seq(|regexes|, k requires 0 <= k < |regexes| => Mapping(regexes[k], family))
  }

  /** Every family's mappings, families in file order. */
  function RegexMap(json: FamiliesJson): seq<Mapping>
    decreases |json|
  {
    if |json| == 0 then []
    else
      var last := json[|json| - 1];
      RegexMap(json[..|json| - 1]) + FamilyMappings(last.0, last.1)
  }

  /** The number of regexes over all families. */
  function RegexCount(json: FamiliesJson): nat
    decreases |json|
  {
    if |json| == 0 then 0 else RegexCount(json[..|json| - 1]) + |json[|json| - 1].1|
  }

  /** One mapping per regex, and a (regex, family) pair is listed exactly when the family lists
      that regex. */
  lemma {:induction false} RegexMapMembers(json: FamiliesJson)
    ensures |RegexMap(json)| == RegexCount(json)
    ensures forall p, f :: Mapping(p, f) in RegexMap(json)
              <==> exists i :: 0 <= i < |json| && json[i].0 == f && p in json[i].1
    decreases |json|
  {
    if |json| > 0 {
      var init := json[..|json| - 1];
      var last := json[|json| - 1];
      var tail := FamilyMappings(last.0, last.1);
      RegexMapMembers(init);
      forall p, f ensures Mapping(p, f) in RegexMap(json)
                    <==> exists i :: 0 <= i < |json| && json[i].0 == f && p in json[i].1
      {
        if Mapping(p, f) in tail {
          var k :| 0 <= k < |tail| && tail[k] == Mapping(p, f);
          assert json[|json| - 1].0 == f && p in json[|json| - 1].1;
        }
        if exists i :: 0 <= i < |json| && json[i].0 == f && p in json[i].1 {
          var i :| 0 <= i < |json| && json[i].0 == f && p in json[i].1;
          if i < |init| {
            assert init[i] == json[i];
          } else {
            var k :| 0 <= k < |last.1| && last.1[k] == p;
            assert tail[k] == Mapping(p, f);
          }
        }
        if exists i :: 0 <= i < |init| && init[i].0 == f && p in init[i].1 {
          var i :| 0 <= i < |init| && init[i].0 == f && p in init[i].1;
          assert json[i] == init[i];
        }
      }
    }
  }

  /** The nested loops: for each family, for each of its regexes, append a mapping. */
  method GenerateRegexMap(json: FamiliesJson) returns (mappings: seq<Mapping>)
    ensures mappings == RegexMap(json)
  {
    mappings := [];
    var i := 0;
    while i < |json|
      invariant 0 <= i <= |json|
      invariant mappings == RegexMap(json[..i])
    {
      mappings := AppendFamily(mappings, json[i].0, json[i].1);
      assert json[..i + 1][..i] == json[..i];
      i := i + 1;
    }
    assert json[..i] == json;
  }

  /** The inner loop over one family's regexes. */
  method AppendFamily(mappings: seq<Mapping>, family: string, regexes: seq<string>) returns (r: seq<Mapping>)
    ensures r == mappings + FamilyMappings(family, regexes)
  {
    r := mappings;
    var j := 0;
    while j < |regexes|
      invariant 0 <= j <= |regexes|
      invariant r == mappings + FamilyMappings(family, regexes[..j])
    {
      r := r + [Mapping(regexes[j], family)];
      j := j + 1;
    }
    assert regexes[..j] == regexes;
  }

  // ---------------------------------------------------------------------------------------
  // `_parse_csv_data`

  /** A data row of the drive-stats CSV: the raw model, the day (a day number), and the drive
      and failure counts as text. */
  datatype CsvRow = CsvRow(model: string, date: int, driveCount: string, failureCount: string)

  /** The families of the mappings whose regex matches `model`. */
  function MatchedFamilies(matches: (string, string) -> bool, mappings: seq<Mapping>, model: string): set<string> {
    set k | 0 <= k < |mappings| && matches(mappings[k].regex, model) :: mappings[k].family
  }

  /** The family the resolution loop ends with: that of the last mapping that matches, since
      the loop does not stop at the first. */
  function LastFamily(matches: (string, string) -> bool, mappings: seq<Mapping>, model: string): Option<string>
    decreases |mappings|
  {
    if |mappings| == 0 then None
    else if matches(mappings[|mappings| - 1].regex, model) then Some(mappings[|mappings| - 1].family)
    else LastFamily(matches, mappings[..|mappings| - 1], model)
  }

  /** The last match wins: the family resolved is that of a matching mapping after which no
      mapping matches, and there is none exactly when no mapping matches. */
  lemma {:induction false} LastFamilyIsLast(matches: (string, string) -> bool, mappings: seq<Mapping>, model: string)
    ensures LastFamily(matches, mappings, model).None?
            <==> forall k :: 0 <= k < |mappings| ==> !matches(mappings[k].regex, model)
    ensures LastFamily(matches, mappings, model).Some? ==>
              exists k :: 0 <= k < |mappings| && matches(mappings[k].regex, model)
                && mappings[k].family == LastFamily(matches, mappings, model).value
                && forall j :: k < j < |mappings| ==> !matches(mappings[j].regex, model)
    decreases |mappings|
  {
    if |mappings| > 0 {
      var n := |mappings| - 1;
      var init := mappings[..n];
      LastFamilyIsLast(matches, init, model);
      if !matches(mappings[n].regex, model) {
        if LastFamily(matches, init, model).Some? {
          var k :| 0 <= k < |init| && matches(init[k].regex, model)
                 && init[k].family == LastFamily(matches, init, model).value
                 && forall j :: k < j < |init| ==> !matches(init[j].regex, model);
          assert mappings[k] == init[k];
        }
        assert forall k :: 0 <= k < n ==> mappings[k] == init[k];
      }
    }
  }

  /** `parsed_data[family] = {}` for each matching family not yet present, in mapping order. */
  function AddFamilies(data: map<string, map<int, Counts>>, matches: (string, string) -> bool,
                       mappings: seq<Mapping>, model: string): map<string, map<int, Counts>>
    decreases |mappings|
  {
    if |mappings| == 0 then data
    else
      var before := AddFamilies(data, matches, mappings[..|mappings| - 1], model);
      var last := mappings[|mappings| - 1];
      if matches(last.regex, model) && last.family !in before then before[last.family := map[]] else before
  }

  /** Resolving a model adds an empty dictionary for each matching family that had none and
      changes nothing else. */
  lemma {:induction false} AddFamiliesKeys(data: map<string, map<int, Counts>>, matches: (string, string) -> bool,
                                           mappings: seq<Mapping>, model: string)
    ensures AddFamilies(data, matches, mappings, model).Keys == data.Keys + MatchedFamilies(matches, mappings, model)
    ensures forall f :: f in AddFamilies(data, matches, mappings, model) ==>
              AddFamilies(data, matches, mappings, model)[f] == if f in data then data[f] else map[]
    decreases |mappings|
  {
    if |mappings| > 0 {
      var n := |mappings| - 1;
      var init := mappings[..n];
      AddFamiliesKeys(data, matches, init, model);
      assert MatchedFamilies(matches, mappings, model)
             == MatchedFamilies(matches, init, model)
                + (if matches(mappings[n].regex, model) then {mappings[n].family} else {}) by {
        forall f | f in MatchedFamilies(matches, mappings, model)
          ensures f in MatchedFamilies(matches, init, model)
                       + (if matches(mappings[n].regex, model) then {mappings[n].family} else {})
        {
          var k :| 0 <= k < |mappings| && matches(mappings[k].regex, model) && mappings[k].family == f;
          if k < n { assert init[k] == mappings[k]; }
        }
        forall f | f in MatchedFamilies(matches, init, model) ensures f in MatchedFamilies(matches, mappings, model) {
          var k :| 0 <= k < |init| && matches(init[k].regex, model) && init[k].family == f;
          assert mappings[k] == init[k];
        }
      }
    }
  }

  /** The state the row loop carries: the table, and the cleaned model and family of the
      previous row. */
  datatype ParseState = ParseState(data: map<string, map<int, Counts>>, model: Option<string>, family: Option<string>)

  const Start: ParseState := ParseState(map[], None, None)

  /** One row. The family is resolved again only when the cleaned model differs from the
      previous row's; a row without a family is skipped before its counts are read; otherwise
      `int()` of the two counts (either may raise) is added to the cell of the family and
      day, created at zero. */
  function Step(st: ParseState, row: CsvRow, matches: (string, string) -> bool, mappings: seq<Mapping>)
    : Result<ParseState, PyError>
  {
    var model := Clean(row.model);
    var st' := if st.model != Some(model)
               then ParseState(AddFamilies(st.data, matches, mappings, model), Some(model),
                               LastFamily(matches, mappings, model))
               else st;
    if st'.family.None? then Ok(st')
    else
      var drives := ParseInt(row.driveCount);
      var failures := ParseInt(row.failureCount);
      if drives.Err? then Err(drives.error)
      else if failures.Err? then Err(failures.error)
      else Ok(st'.(data := AddAt(st'.data, st'.family.value, row.date, Counts(drives.value, failures.value))))
  }

  /** The state after the rows, in order; the first exception ends the loop. */
  function Fold(rows: seq<CsvRow>, matches: (string, string) -> bool, mappings: seq<Mapping>)
    : Result<ParseState, PyError>
    decreases |rows|
  {
    if |rows| == 0 then Ok(Start)
    else
      var before := Fold(rows[..|rows| - 1], matches, mappings);
      if before.Err? then before else Step(before.value, rows[|rows| - 1], matches, mappings)
  }

  /** The row loop, with the previous model and family in variables. */
  method ParseCsvData(rows: seq<CsvRow>, matches: (string, string) -> bool, mappings: seq<Mapping>)
    returns (r: Result<map<string, map<int, Counts>>, PyError>)
    ensures Fold(rows, matches, mappings).Ok? ==> r == Ok(Fold(rows, matches, mappings).value.data)
    ensures Fold(rows, matches, mappings).Err? ==> r == Err(Fold(rows, matches, mappings).error)
  {
    var data: map<string, map<int, Counts>> := map[];
    var currentModel: Option<string> := None;
    var currentFamily: Option<string> := None;
    var i := 0;
    while i < |rows|
      invariant 0 <= i <= |rows|
      invariant Fold(rows[..i], matches, mappings) == Ok(ParseState(data, currentModel, currentFamily))
    {
      assert rows[..i + 1][..i] == rows[..i];
      var next := ParseRow(data, currentModel, currentFamily, rows[i], matches, mappings);
      if next.Err? {
        ErrPersists(rows, matches, mappings, i + 1);
        assert rows[..|rows|] == rows;
        return Err(next.error);
      }
      data, currentModel, currentFamily := next.value.data, next.value.model, next.value.family;
      i := i + 1;
    }
    assert rows[..i] == rows;
    return Ok(data);
  }

  /** The loop body: one row. */
  method ParseRow(data: map<string, map<int, Counts>>, currentModel: Option<string>, currentFamily: Option<string>,
                  row: CsvRow, matches: (string, string) -> bool, mappings: seq<Mapping>)
    returns (r: Result<ParseState, PyError>)
    ensures r == Step(ParseState(data, currentModel, currentFamily), row, matches, mappings)
  {
    var data', model', family' := data, currentModel, currentFamily;
    var model := Clean(row.model);
    if model' != Some(model) {
      model' := Some(model);
      data', family' := ResolveFamily(data', matches, mappings, model);
    }
    if family'.None? {
      return Ok(ParseState(data', model', family'));
    }
    var drives := ParseInt(row.driveCount);
    if drives.Err? {
      return Err(drives.error);
    }
    var failures := ParseInt(row.failureCount);
    if failures.Err? {
      return Err(failures.error);
    }
    data' := AddAt(data', family'.value, row.date, Counts(drives.value, failures.value));
    return Ok(ParseState(data', model', family'));
  }

  /** The inner loop over every mapping, without `break`: matching families get a dictionary
      and the last match is the family. */
  method ResolveFamily(data: map<string, map<int, Counts>>, matches: (string, string) -> bool,
                       mappings: seq<Mapping>, model: string)
    returns (data': map<string, map<int, Counts>>, family: Option<string>)
    ensures data' == AddFamilies(data, matches, mappings, model)
    ensures family == LastFamily(matches, mappings, model)
  {
    data', family := data, None;
    var k := 0;
    while k < |mappings|
      invariant 0 <= k <= |mappings|
      invariant data' == AddFamilies(data, matches, mappings[..k], model)
      invariant family == LastFamily(matches, mappings[..k], model)
    {
      assert mappings[..k + 1][..k] == mappings[..k];
      if matches(mappings[k].regex, model) {
        family := Some(mappings[k].family);
        if mappings[k].family !in data' {
          data' := data'[mappings[k].family := map[]];
        }
      }
      k := k + 1;
    }
    assert mappings[..k] == mappings;
  }

  /** Once a prefix of the rows has raised, so have all the rows. */
  lemma {:induction false} ErrPersists(rows: seq<CsvRow>, matches: (string, string) -> bool, mappings: seq<Mapping>, i: nat)
    requires i <= |rows| && Fold(rows[..i], matches, mappings).Err?
    ensures Fold(rows, matches, mappings) == Fold(rows[..i], matches, mappings)
    decreases |rows| - i
  {
    if i < |rows| {
      assert rows[..i + 1][..i] == rows[..i];
      ErrPersists(rows, matches, mappings, i + 1);
    } else {
      assert rows[..i] == rows;
    }
  }

  /** Remembering the previous model is transparent: after each row the family in hand is the
      one resolving that row's cleaned model afresh would give. */
  lemma {:induction false} FoldCurrent(rows: seq<CsvRow>, matches: (string, string) -> bool, mappings: seq<Mapping>)
    requires |rows| > 0 && Fold(rows, matches, mappings).Ok?
    ensures Fold(rows, matches, mappings).value.model == Some(Clean(rows[|rows| - 1].model))
    ensures Fold(rows, matches, mappings).value.family == LastFamily(matches, mappings, Clean(rows[|rows| - 1].model))
    decreases |rows|
  {
    var init := rows[..|rows| - 1];
    if |init| > 0 {
      FoldCurrent(init, matches, mappings);
    }
  }

  /** The family a row is counted under, when it has one. */
  function RowFamily(row: CsvRow, matches: (string, string) -> bool, mappings: seq<Mapping>): Option<string> {
    LastFamily(matches, mappings, Clean(row.model))
  }

  /** A family has a dictionary exactly when some mapping of it matches some row's cleaned
      model, whether or not it is that row's last match. */
  lemma {:induction false} FoldFamilies(rows: seq<CsvRow>, matches: (string, string) -> bool, mappings: seq<Mapping>)
    requires Fold(rows, matches, mappings).Ok?
    ensures Fold(rows, matches, mappings).value.data.Keys == RowsFamilies(rows, matches, mappings)
    decreases |rows|
  {
    if |rows| > 0 {
      FoldFamilies(rows[..|rows| - 1], matches, mappings);
      FoldKeysStep(rows, matches, mappings);
    }
  }

  /** The families matching some row's cleaned model: the union, row by row, of the families
      of the mappings that match it. */
  function RowsFamilies(rows: seq<CsvRow>, matches: (string, string) -> bool, mappings: seq<Mapping>): set<string>
    decreases |rows|
  {
    if |rows| == 0 then {}
    else RowsFamilies(rows[..|rows| - 1], matches, mappings) + MatchedFamilies(matches, mappings, Clean(rows[|rows| - 1].model))
  }

  /** A row adds the families matching its cleaned model, and no other. */
  lemma {:induction false} FoldKeysStep(rows: seq<CsvRow>, matches: (string, string) -> bool, mappings: seq<Mapping>)
    requires |rows| > 0 && Fold(rows, matches, mappings).Ok?
    ensures Fold(rows, matches, mappings).value.data.Keys
            == Fold(rows[..|rows| - 1], matches, mappings).value.data.Keys
               + MatchedFamilies(matches, mappings, Clean(rows[|rows| - 1].model))
  {
    var n := |rows| - 1;
    var init := rows[..n];
    var model := Clean(rows[n].model);
    var before := Fold(init, matches, mappings).value;
    var after := Fold(rows, matches, mappings).value;
    AddFamiliesKeys(before.data, matches, mappings, model);
    LastFamilyIsLast(matches, mappings, model);
    if before.model == Some(model) {
      FoldCurrent(init, matches, mappings);
      FamiliesHeld(init, matches, mappings);
    }
    assert after.data.Keys == (if before.model != Some(model) then AddFamilies(before.data, matches, mappings, model) else before.data).Keys
                              + (if after.family.Some? then {after.family.value} else {});
  }

  /** After a row, the families matching its cleaned model all have a dictionary. */
  lemma {:induction false} FamiliesHeld(rows: seq<CsvRow>, matches: (string, string) -> bool, mappings: seq<Mapping>)
    requires |rows| > 0 && Fold(rows, matches, mappings).Ok?
    ensures MatchedFamilies(matches, mappings, Clean(rows[|rows| - 1].model)) <= Fold(rows, matches, mappings).value.data.Keys
  {
    var n := |rows| - 1;
    var model := Clean(rows[n].model);
    var init := rows[..n];
    var before := Fold(init, matches, mappings).value;
    AddFamiliesKeys(before.data, matches, mappings, model);
    if before.model == Some(model) {
      FoldCurrent(init, matches, mappings);
      FamiliesHeld(init, matches, mappings);
    }
  }

  /** The counts a row adds once its text has parsed (a count that does not parse ends the
      loop before any row after it). */
  function RowCounts(row: CsvRow): Counts {
    var d := ParseInt(row.driveCount);
    var f := ParseInt(row.failureCount);
    Counts(if d.Ok? then d.value else 0, if f.Ok? then f.value else 0)
  }

  /** The rows counted under family `f` on day `day`, in order. */
  function Counted(rows: seq<CsvRow>, matches: (string, string) -> bool, mappings: seq<Mapping>, f: string, day: int)
    : seq<CsvRow>
    decreases |rows|
  {
    if |rows| == 0 then []
    else
      var r := rows[|rows| - 1];
      Counted(rows[..|rows| - 1], matches, mappings, f, day)
        + (if RowFamily(r, matches, mappings) == Some(f) && r.date == day then [r] else [])
  }

  /** The counts of some rows, added up. */
  function Total(rs: seq<CsvRow>): Counts
    decreases |rs|
  {
    if |rs| == 0 then Zero else Plus(Total(rs[..|rs| - 1]), RowCounts(rs[|rs| - 1]))
  }

  /** Each (family, day) entry holds the sums of the counts of the rows whose cleaned model
      resolves to that family, on that day; the entry exists exactly when there is such a row.
      Rows whose model resolves to no family add nothing. */
  lemma {:induction false} FoldCells(rows: seq<CsvRow>, matches: (string, string) -> bool, mappings: seq<Mapping>,
                                     f: string, day: int)
    requires Fold(rows, matches, mappings).Ok?
    ensures CellOr(Fold(rows, matches, mappings).value.data, f, day) == Total(Counted(rows, matches, mappings, f, day))
    ensures (f in Fold(rows, matches, mappings).value.data && day in Fold(rows, matches, mappings).value.data[f])
            <==> |Counted(rows, matches, mappings, f, day)| > 0
    decreases |rows|
  {
    if |rows| > 0 {
      var init := rows[..|rows| - 1];
      var r := rows[|rows| - 1];
      FoldCells(init, matches, mappings, f, day);
      LastStep(rows, matches, mappings);
      var st := Fold(init, matches, mappings).value;
      var before := Counted(init, matches, mappings, f, day);
      if RowFamily(r, matches, mappings) == Some(f) && r.date == day {
        StepCellHit(st, r, matches, mappings, f);
        assert (before + [r])[..|before|] == before;
      } else {
        StepCellMiss(st, r, matches, mappings, f, day);
        assert Counted(rows, matches, mappings, f, day) == before;
      }
    }
  }

  /** The last row is one more step of the loop, whose family in hand is the row's own. */
  lemma {:induction false} LastStep(rows: seq<CsvRow>, matches: (string, string) -> bool, mappings: seq<Mapping>)
    requires |rows| > 0 && Fold(rows, matches, mappings).Ok?
    ensures var st := Fold(rows[..|rows| - 1], matches, mappings);
      var r := rows[|rows| - 1];
      && st.Ok?
      && Step(st.value, r, matches, mappings) == Fold(rows, matches, mappings)
      && Resolved(st.value, Clean(r.model), matches, mappings).family == RowFamily(r, matches, mappings)
  {
    var n := |rows| - 1;
    var r := rows[n];
    var st := Fold(rows[..n], matches, mappings).value;
    StepShape(st, r, matches, mappings);
    FoldCurrent(rows, matches, mappings);
  }

  /** Resolving a model only adds empty dictionaries: no cell changes or appears. */
  lemma {:induction false} ResolvedCells(st: ParseState, model: string, matches: (string, string) -> bool, mappings: seq<Mapping>,
                      f: string, day: int)
    ensures var mid := Resolved(st, model, matches, mappings).data;
      && CellOr(mid, f, day) == CellOr(st.data, f, day)
      && ((f in mid && day in mid[f]) <==> (f in st.data && day in st.data[f]))
  {
    AddFamiliesKeys(st.data, matches, mappings, model);
  }

  /** A row adds its counts to the cell of the family in hand on its day... */
  lemma {:induction false} StepCellHit(st: ParseState, row: CsvRow, matches: (string, string) -> bool, mappings: seq<Mapping>, f: string)
    requires Step(st, row, matches, mappings).Ok?
    requires Resolved(st, Clean(row.model), matches, mappings).family == Some(f)
    ensures var b := Step(st, row, matches, mappings).value.data;
      && CellOr(b, f, row.date) == Plus(CellOr(st.data, f, row.date), RowCounts(row))
      && f in b && row.date in b[f]
  {
    var mid := Resolved(st, Clean(row.model), matches, mappings);
    StepShape(st, row, matches, mappings);
    ResolvedCells(st, Clean(row.model), matches, mappings, f, row.date);
    var b := AddAt(mid.data, f, row.date, RowCounts(row));
    assert Step(st, row, matches, mappings).value.data == b;
    assert f in b && row.date in b[f];
  }

  /** ...and to no other cell. */
  lemma {:induction false} StepCellMiss(st: ParseState, row: CsvRow, matches: (string, string) -> bool, mappings: seq<Mapping>,
                     f: string, day: int)
    requires Step(st, row, matches, mappings).Ok?
    requires Resolved(st, Clean(row.model), matches, mappings).family != Some(f) || row.date != day
    ensures var b := Step(st, row, matches, mappings).value.data;
      && CellOr(b, f, day) == CellOr(st.data, f, day)
      && ((f in b && day in b[f]) <==> (f in st.data && day in st.data[f]))
  {
    var mid := Resolved(st, Clean(row.model), matches, mappings);
    StepShape(st, row, matches, mappings);
    ResolvedCells(st, Clean(row.model), matches, mappings, f, day);
    if mid.family.Some? {
      var b := AddAt(mid.data, mid.family.value, row.date, RowCounts(row));
      assert Step(st, row, matches, mappings).value.data == b;
      AddAtElsewhere(mid.data, mid.family.value, row.date, RowCounts(row));
      assert CellOr(b, f, day) == CellOr(mid.data, f, day);
    }
  }

  /** The state once the row's model has been looked at: resolved afresh when it changed. */
  function Resolved(st: ParseState, model: string, matches: (string, string) -> bool, mappings: seq<Mapping>): ParseState {
    if st.model != Some(model)
    then ParseState(AddFamilies(st.data, matches, mappings, model), Some(model), LastFamily(matches, mappings, model))
    else st
  }

  /** A step that does not raise adds the row's counts under the family in hand, if any. */
  lemma {:induction false} StepShape(st: ParseState, row: CsvRow, matches: (string, string) -> bool, mappings: seq<Mapping>)
    requires Step(st, row, matches, mappings).Ok?
    ensures var mid := Resolved(st, Clean(row.model), matches, mappings);
      Step(st, row, matches, mappings).value
        == if mid.family.None? then mid else mid.(data := AddAt(mid.data, mid.family.value, row.date, RowCounts(row)))
  {
  }

  // ---------------------------------------------------------------------------------------
  // `_prep_csv_data_for_afr_calc`

  /** One date dictionary after prepping: the day's sums, the day's 1-based index counted
      from the family's first day, and the running sums up to and including that day. */
  datatype Prepped = Prepped(date: int, counts: Counts, dayIndex: int, cumulative: Counts)

  /** The prepped dictionary of the `k`-th of `days`, indexed from `days[0]`. */
  function PrepEntry(dates: map<int, Counts>, days: seq<int>, k: nat): Prepped
    requires k < |days| && forall i :: 0 <= i < |days| ==> days[i] in dates
  {
    Prepped(days[k], dates[days[k]], days[k] - days[0] + 1, SumAt(dates, days[..k + 1]))
  }

  /** The dates at `days`, each prepped, in the order of `days`. */
  function PrepAlong(dates: map<int, Counts>, days: seq<int>): (r: seq<Prepped>)
    requires forall i :: 0 <= i < |days| ==> days[i] in dates
    ensures |r| == |days|
  {
    seq(|days|, k requires 0 <= k < |days| => PrepEntry(dates, days, k))
  }

  /** The dates of a prepped list, in its order. */
  function DatesOf(list: seq<Prepped>): (r: seq<int>)
    ensures |r| == |list| && forall k :: 0 <= k < |r| ==> r[k] == list[k].date
  {
    seq(|list|, k requires 0 <= k < |list| => list[k].date)
  }

  /** `list` is a family's list: the family's dates in ascending order, each prepped. */
  predicate IsPrepOf(dates: map<int, Counts>, list: seq<Prepped>) {
    Lists(dates, DatesOf(list)) && list == PrepAlong(dates, DatesOf(list))
  }

  /** Along ascending days, the list follows the days, each with its own sums; the day index
      starts at 1 and grows strictly, by the number of days between the dates. */
  lemma {:induction false} PrepAlongDays(dates: map<int, Counts>, days: seq<int>)
    requires |days| > 0 && AscendingInts(days) && forall i :: 0 <= i < |days| ==> days[i] in dates
    ensures var r := PrepAlong(dates, days);
      && r[0].dayIndex == 1
      && (forall k :: 0 <= k < |r| ==> r[k].date == days[k] && r[k].counts == dates[days[k]])
      && (forall j, k :: 0 <= j < k < |r| ==> r[j].dayIndex < r[k].dayIndex)
      && (forall k :: 0 <= k < |r| ==> r[k].dayIndex == r[k].date - r[0].date + 1 >= 1)
  {
    var r := PrepAlong(dates, days);
    forall k | 0 <= k < |r| ensures r[k].dayIndex == r[k].date - r[0].date + 1 >= 1 {
      if k > 0 {
        assert days[0] < days[k];
      }
    }
  }

  /** The cumulative fields are running sums: the first day's own sums, then each day's sums
      added to those of the day before. */
  lemma {:induction false} PrepAlongSums(dates: map<int, Counts>, days: seq<int>)
    requires forall i :: 0 <= i < |days| ==> days[i] in dates
    ensures var r := PrepAlong(dates, days);
      && (|r| > 0 ==> r[0].cumulative == r[0].counts)
      && (forall k :: 0 < k < |r| ==> r[k].cumulative == Plus(r[k - 1].cumulative, r[k].counts))
      && (|r| > 0 ==> r[|r| - 1].cumulative == SumAt(dates, days))
  {
    var r := PrepAlong(dates, days);
    if |r| > 0 {
      var first := dates[days[0]];
      assert days[..1][..0] == [];
      assert SumAt(dates, days[..1]) == Plus(Zero, first);
      assert Plus(Zero, first) == Counts(first.drives, first.failures) == first;
      assert days[..|r|] == days;
    }
    forall k | 0 < k < |r| ensures r[k].cumulative == Plus(r[k - 1].cumulative, r[k].counts) {
      assert days[..k + 1][..k] == days[..k];
    }
  }

  /** `days` lists every date of `dates`, ascending. */
  predicate Lists(dates: map<int, Counts>, days: seq<int>) {
    && AscendingInts(days)
    && (forall i :: 0 <= i < |days| ==> days[i] in dates)
    && (forall d :: d in dates ==> d in days)
  }

  lemma {:induction false} SortedDaysList(dates: map<int, Counts>)
    ensures Lists(dates, SortedInts(dates.Keys))
  {
  }

  /** Along all the dates, ascending, each date is listed once with its sums; the day index is
      1 on the first and grows strictly. */
  lemma {:induction false} PrepAlongDates(dates: map<int, Counts>, days: seq<int>)
    requires |days| > 0 && Lists(dates, days)
    ensures var r := PrepAlong(dates, days);
      && r[0].dayIndex == 1
      && (forall d :: d in dates <==> exists k :: 0 <= k < |r| && r[k].date == d)
      && (forall k :: 0 <= k < |r| ==> r[k].date in dates && r[k].counts == dates[r[k].date])
      && (forall j, k :: 0 <= j < k < |r| ==> r[j].date < r[k].date && r[j].dayIndex < r[k].dayIndex)
  {
    var r := PrepAlong(dates, days);
    PrepAlongDays(dates, days);
    forall d | d in dates ensures exists k :: 0 <= k < |r| && r[k].date == d {
      var k :| 0 <= k < |days| && days[k] == d;
      assert r[k].date == d;
    }
  }

  /** A family has one list only: an ascending listing of a set of dates is unique. */
  lemma {:induction false} PrepOfUnique(dates: map<int, Counts>, a: seq<Prepped>, b: seq<Prepped>)
    requires IsPrepOf(dates, a) && IsPrepOf(dates, b)
    ensures a == b
  {
    var da := DatesOf(a);
    var db := DatesOf(b);
    forall d ensures d in da <==> d in db {
      if d in da {
        var i :| 0 <= i < |da| && da[i] == d;
      }
      if d in db {
        var i :| 0 <= i < |db| && db[i] == d;
      }
    }
    AscendingIntsUnique(da, db);
  }

  /** A family's list holds each of its dates once, ascending, with that date's sums; the day
      index is 1 on the first and grows strictly. */
  lemma {:induction false} PrepListDates(dates: map<int, Counts>, r: seq<Prepped>)
    requires dates.Keys != {} && IsPrepOf(dates, r)
    ensures |r| > 0 && r[0].dayIndex == 1
    ensures forall d :: d in dates <==> exists k :: 0 <= k < |r| && r[k].date == d
    ensures forall k :: 0 <= k < |r| ==> r[k].date in dates && r[k].counts == dates[r[k].date]
    ensures forall j, k :: 0 <= j < k < |r| ==> r[j].date < r[k].date && r[j].dayIndex < r[k].dayIndex
  {
    var days := DatesOf(r);
    assert |days| > 0 by {
      if forall d :: d !in dates.Keys {
        assert false;
      }
      var d :| d in dates.Keys;
      assert d in days;
    }
    PrepAlongDates(dates, days);
  }

  /** Along all the dates, the last running sums are the family's totals. */
  lemma {:induction false} PrepAlongTotals(dates: map<int, Counts>, days: seq<int>)
    requires |days| > 0 && Lists(dates, days)
    ensures PrepAlong(dates, days)[|days| - 1].cumulative == Counts(SumDrives(dates), SumFailures(dates))
  {
    PrepAlongSums(dates, days);
    DistinctInts(days);
    forall d ensures d in days <==> d in dates {
      if d in days {
        var i :| 0 <= i < |days| && days[i] == d;
      }
    }
    SumAtAll(dates, days);
  }

  /** The cumulative fields of a family's list are running sums that end at the family's
      totals. */
  lemma {:induction false} PrepListSums(dates: map<int, Counts>, r: seq<Prepped>)
    requires dates.Keys != {} && IsPrepOf(dates, r)
    ensures |r| > 0 && r[0].cumulative == r[0].counts
    ensures forall k :: 0 < k < |r| ==> r[k].cumulative == Plus(r[k - 1].cumulative, r[k].counts)
    ensures r[|r| - 1].cumulative == Counts(SumDrives(dates), SumFailures(dates))
  {
    var days := DatesOf(r);
    assert |days| > 0 by {
      if forall d :: d !in dates.Keys {
        assert false;
      }
      var d :| d in dates.Keys;
      assert d in days;
    }
    PrepAlongSums(dates, days);
    PrepAlongTotals(dates, days);
  }

  lemma {:induction false} DistinctInts(days: seq<int>)
    requires AscendingInts(days)
    ensures forall i, j :: 0 <= i < j < |days| ==> days[i] != days[j]
  {
  }

  /** The inner loop of `_prep_csv_data_for_afr_calc` over one family's sorted dates, keeping
      the running sums. The source reads `sorted_dates[0]` first: a family with no date raises
      `IndexError`. */
  method PrepFamily(dates: map<int, Counts>) returns (r: Result<seq<Prepped>, PyError>)
    ensures dates.Keys == {} <==> r.Err?
    ensures r.Err? ==> r.error == IndexError
    ensures r.Ok? ==> IsPrepOf(dates, r.value)
  {
    var days := SortedInts(dates.Keys);
    SortedDaysList(dates);
    if |days| == 0 {
      assert dates.Keys == {};
      return Err(IndexError);
    }
    assert days[0] in dates;
    var out := PrepDays(dates, days);
    assert DatesOf(out) == days;
    return Ok(out);
  }

  /** The loop itself, along given days. */
  method PrepDays(dates: map<int, Counts>, days: seq<int>) returns (out: seq<Prepped>)
    requires |days| > 0 && forall i :: 0 <= i < |days| ==> days[i] in dates
    ensures out == PrepAlong(dates, days)
  {
    var start := days[0];
    var cumulative := Zero;
    out := [];
    for k := 0 to |days|
      invariant |out| == k
      invariant forall j :: 0 <= j < k ==> out[j] == PrepEntry(dates, days, j)
      invariant cumulative == SumAt(dates, days[..k])
    {
      var counts := dates[days[k]];
      assert days[..k + 1][..k] == days[..k];
      cumulative := Plus(cumulative, counts);
      out := out + [Prepped(days[k], counts, days[k] - start + 1, cumulative)];
    }
  }

  /** `_prep_csv_data_for_afr_calc`: every family's dates, prepped. The families are visited
      in the dictionary's order, which the result does not depend on: only which empty family
      raises first would, and every one raises the same `IndexError`. */
  method PrepCsvDataForAfrCalc(parsed: map<string, map<int, Counts>>)
    returns (r: Result<map<string, seq<Prepped>>, PyError>)
    ensures r.Err? <==> exists f :: f in parsed && parsed[f].Keys == {}
    ensures r.Err? ==> r.error == IndexError
    ensures r.Ok? ==> forall f :: f in parsed <==> f in r.value
    ensures r.Ok? ==> forall f :: f in parsed ==> IsPrepOf(parsed[f], r.value[f])
  {
    var families := Enumerate(parsed.Keys);
    r := PrepFamilies(parsed, families);
    if exists f :: f in parsed && parsed[f].Keys == {} {
      var f :| f in parsed && parsed[f].Keys == {};
      var j :| 0 <= j < |families| && families[j] == f;
    }
    if r.Ok? {
      forall f | f in parsed ensures f in r.value {
        var j :| 0 <= j < |families| && families[j] == f;
      }
    }
  }

  /** The outer loop, over the given families. */
  method PrepFamilies(parsed: map<string, map<int, Counts>>, families: seq<string>)
    returns (r: Result<map<string, seq<Prepped>>, PyError>)
    requires forall j :: 0 <= j < |families| ==> families[j] in parsed
    ensures r.Err? <==> exists j :: 0 <= j < |families| && parsed[families[j]].Keys == {}
    ensures r.Err? ==> r.error == IndexError
    ensures r.Ok? ==> forall j :: 0 <= j < |families| ==> families[j] in r.value
    ensures r.Ok? ==> forall f :: f in r.value ==> f in parsed && IsPrepOf(parsed[f], r.value[f])
  {
    var out: map<string, seq<Prepped>> := map[];
    for i := 0 to |families|
      invariant forall j :: 0 <= j < i ==> families[j] in out
      invariant forall f :: f in out ==> f in parsed && parsed[f].Keys != {} && IsPrepOf(parsed[f], out[f])
    {
      var f := families[i];
      var list := PrepFamily(parsed[f]);
      if list.Err? {
        return Err(IndexError);
      }
      out := AddPrepped(parsed, out, f, list.value);
    }
    return Ok(out);
  }

  /** Storing one family's list keeps every stored list its family's. */
  function AddPrepped(parsed: map<string, map<int, Counts>>, out: map<string, seq<Prepped>>, f: string,
                      list: seq<Prepped>): (r: map<string, seq<Prepped>>)
    requires f in parsed && IsPrepOf(parsed[f], list)
    requires parsed[f].Keys != {}
    requires forall g :: g in out ==> g in parsed && parsed[g].Keys != {} && IsPrepOf(parsed[g], out[g])
    ensures forall g :: g in out ==> g in r
    ensures f in r
    ensures forall g :: g in r ==> g in parsed && parsed[g].Keys != {} && IsPrepOf(parsed[g], r[g])
  {
    out[f := list]
  }

  // ---------------------------------------------------------------------------------------
  // a family matched before the last match is left without dates

  /** As written, every matching family gets a dictionary but only the last match gets the
      row's counts. A model matching regexes of two families leaves the first one with no date,
      and `_prep_csv_data_for_afr_calc` then raises `IndexError` at `sorted_dates[0]`
      (`PrepCsvDataForAfrCalc` returns `Err` exactly then). */
  lemma {:induction false} EarlierMatchLeftEmpty(matches: (string, string) -> bool, mappings: seq<Mapping>, row: CsvRow)
    requires |mappings| == 2 && mappings[0].family != mappings[1].family
    requires matches(mappings[0].regex, Clean(row.model)) && matches(mappings[1].regex, Clean(row.model))
    requires ParseInt(row.driveCount).Ok? && ParseInt(row.failureCount).Ok?
    ensures Fold([row], matches, mappings).Ok?
    ensures mappings[0].family in Fold([row], matches, mappings).value.data
    ensures Fold([row], matches, mappings).value.data[mappings[0].family].Keys == {}
  {
    var model := Clean(row.model);
    var data := BothFamiliesAdded(matches, mappings, model);
    assert [row][..0] == [];
    assert Fold([row], matches, mappings) == Step(Start, row, matches, mappings);
    var d := Counts(ParseInt(row.driveCount).value, ParseInt(row.failureCount).value);
    AddAtElsewhere(data, mappings[1].family, row.date, d);
  }

  /** Both families of two matching mappings get an empty dictionary, and the second wins. */
  lemma {:induction false} BothFamiliesAdded(matches: (string, string) -> bool, mappings: seq<Mapping>, model: string)
    returns (data: map<string, map<int, Counts>>)
    requires |mappings| == 2 && mappings[0].family != mappings[1].family
    requires matches(mappings[0].regex, model) && matches(mappings[1].regex, model)
    ensures data == AddFamilies(map[], matches, mappings, model)
    ensures mappings[0].family in data && data[mappings[0].family] == map[]
    ensures LastFamily(matches, mappings, model) == Some(mappings[1].family)
  {
    var one := mappings[..1];
    assert one[..|one| - 1] == [] && one[|one| - 1] == mappings[0];
    assert AddFamilies(map[], matches, [], model) == map[];
    var first := AddFamilies(map[], matches, mappings[..1], model);
    assert first == map[mappings[0].family := map[]];
    assert mappings[..|mappings| - 1] == mappings[..1];
    data := AddFamilies(map[], matches, mappings, model);
  }

  /** A row counted under family `f` on `day` makes the counted rows non-empty. */
  lemma {:induction false} CountedWitness(rows: seq<CsvRow>, matches: (string, string) -> bool,
                                          mappings: seq<Mapping>, f: string, day: int, i: nat)
    requires i < |rows| && RowFamily(rows[i], matches, mappings) == Some(f) && rows[i].date == day
    ensures |Counted(rows, matches, mappings, f, day)| > 0
    decreases |rows|
  {
    var n := |rows| - 1;
    if i < n {
      CountedWitness(rows[..n], matches, mappings, f, day, i);
    }
  }

  /** Non-empty counted rows have a row counted under family `f` on `day`. */
  lemma {:induction false} CountedFind(rows: seq<CsvRow>, matches: (string, string) -> bool,
                                       mappings: seq<Mapping>, f: string, day: int)
    returns (i: nat)
    requires |Counted(rows, matches, mappings, f, day)| > 0
    ensures i < |rows| && RowFamily(rows[i], matches, mappings) == Some(f) && rows[i].date == day
    decreases |rows|
  {
    var n := |rows| - 1;
    if RowFamily(rows[n], matches, mappings) == Some(f) && rows[n].date == day {
      i := n;
    } else {
      i := CountedFind(rows[..n], matches, mappings, f, day);
      assert rows[..n][i] == rows[i];
    }
  }

  /** Some row is counted under family `f` on `day` exactly when some row resolves to `f` and
      falls on `day`. */
  lemma {:induction false} CountedNonEmpty(rows: seq<CsvRow>, matches: (string, string) -> bool,
                        mappings: seq<Mapping>, f: string, day: int)
    ensures |Counted(rows, matches, mappings, f, day)| > 0
            <==> exists i :: 0 <= i < |rows| && RowFamily(rows[i], matches, mappings) == Some(f) && rows[i].date == day
  {
    if |Counted(rows, matches, mappings, f, day)| > 0 {
      var i := CountedFind(rows, matches, mappings, f, day);
    }
    if exists i :: 0 <= i < |rows| && RowFamily(rows[i], matches, mappings) == Some(f) && rows[i].date == day {
      var i :| 0 <= i < |rows| && RowFamily(rows[i], matches, mappings) == Some(f) && rows[i].date == day;
      CountedWitness(rows, matches, mappings, f, day, i);
    }
  }

  /** After the rows, a family has a date exactly when some row's model resolves to it. The
      families that only ever lose to a later match are the ones left empty. */
  lemma {:induction false} FamilyHasDates(rows: seq<CsvRow>, matches: (string, string) -> bool, mappings: seq<Mapping>, f: string)
    requires Fold(rows, matches, mappings).Ok?
    ensures var data := Fold(rows, matches, mappings).value.data;
      (f in data && data[f].Keys != {})
      <==> exists i :: 0 <= i < |rows| && RowFamily(rows[i], matches, mappings) == Some(f)
  {
    var data := Fold(rows, matches, mappings).value.data;
    if f in data && data[f].Keys != {} {
      if forall day :: day !in data[f].Keys {
        assert false;
      }
      var day :| day in data[f].Keys;
      FoldCells(rows, matches, mappings, f, day);
      CountedNonEmpty(rows, matches, mappings, f, day);
    }
    if exists i :: 0 <= i < |rows| && RowFamily(rows[i], matches, mappings) == Some(f) {
      var i :| 0 <= i < |rows| && RowFamily(rows[i], matches, mappings) == Some(f);
      var day := rows[i].date;
      CountedNonEmpty(rows, matches, mappings, f, day);
      FoldCells(rows, matches, mappings, f, day);
      assert day in data[f].Keys;
    }
  }

  /** Corrected: a family with no date is skipped instead of raising, so the prep always
      succeeds, and (by `FamilyHasDates`) keeps exactly the families some row resolves to. */
  method PrepSkippingEmpty(parsed: map<string, map<int, Counts>>) returns (r: map<string, seq<Prepped>>)
    ensures forall f :: f in r <==> f in parsed && parsed[f].Keys != {}
    ensures forall f :: f in r ==> IsPrepOf(parsed[f], r[f])
  {
    var families := Enumerate(parsed.Keys);
    r := PrepNonEmpty(parsed, families);
    forall f | f in parsed && parsed[f].Keys != {} ensures f in r {
      var j :| 0 <= j < |families| && families[j] == f;
    }
  }

  /** The corrected outer loop, over the given families. */
  method PrepNonEmpty(parsed: map<string, map<int, Counts>>, families: seq<string>)
    returns (out: map<string, seq<Prepped>>)
    requires forall j :: 0 <= j < |families| ==> families[j] in parsed
    ensures forall j :: 0 <= j < |families| && parsed[families[j]].Keys != {} ==> families[j] in out
    ensures forall f :: f in out ==> f in parsed && parsed[f].Keys != {} && IsPrepOf(parsed[f], out[f])
  {
    out := map[];
    for i := 0 to |families|
      invariant forall j :: 0 <= j < i && parsed[families[j]].Keys != {} ==> families[j] in out
      invariant forall f :: f in out ==> f in parsed && parsed[f].Keys != {} && IsPrepOf(parsed[f], out[f])
    {
      var f := families[i];
      var list := PrepFamily(parsed[f]);
      if list.Ok? {
        out := AddPrepped(parsed, out, f, list.value);
      }
    }
  }
}
