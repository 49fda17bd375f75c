/** drive_distribution_by_mfr.py: the count of drive-days per day and manufacturer. A model's
    manufacturer is that of the first pattern of the JSON file (in file order) that
    `re.search` finds in it; the script remembers each model it has resolved in a cache and
    each model no pattern matches in an ignored set. */
module MfrDistribution {
  import opened Wrappers
  import opened Tallies
  import opened Patterns

  /** One row of the Parquet file's `date` and `model` columns, the date as the ISO text
      (`row.date.isoformat()`) the counters are keyed by. */
  datatype DriveRow = DriveRow(day: string, model: string)

  /** The JSON object of patterns: its keys in file order, each with its manufacturer. */
  predicate ValidRules(patterns: seq<string>, mfrOf: map<string, string>) {
    forall i :: 0 <= i < |patterns| ==> patterns[i] in mfrOf
  }

  /** The manufacturer of the first pattern found in `model`, if any. */
  function MfrFor(matches: (string, string) -> bool, patterns: seq<string>, mfrOf: map<string, string>,
                  model: string): (r: Option<string>)
    requires ValidRules(patterns, mfrOf)
    ensures r.Some? <==> AnyMatch(matches, patterns, model)
    ensures r.Some? ==> exists i :: 0 <= i < |patterns| && matches(patterns[i], model) && r.value == mfrOf[patterns[i]]
  {
    match FirstIndex(matches, patterns, model)
    case None => None
    case Some(k) => Some(mfrOf[patterns[k]])
  }

  /** The loop's state: the count per ISO day and manufacturer (`mfr_count_per_date`), the
      models no pattern matches (`ignored_models`) and the resolved models
      (`drive_model_to_mfr_cache`). */
  datatype MfrState = MfrState(counts: map<string, map<string, int>>, ignored: set<string>, cache: map<string, string>)

  const Start: MfrState := MfrState(map[], {}, map[])

  /** One row: an ignored model is skipped; a cached model is counted under its cached
      manufacturer; any other model is resolved by the patterns, then cached and counted, or
      added to the ignored set. A count is created at 0 before it is incremented. */
  function Step(s: MfrState, row: DriveRow, matches: (string, string) -> bool, patterns: seq<string>,
                mfrOf: map<string, string>): MfrState
    requires ValidRules(patterns, mfrOf)
  {
    if row.model in s.ignored then s
    else if row.model in s.cache then s.(counts := Bump(s.counts, row.day, s.cache[row.model], 1))
    else
      match MfrFor(matches, patterns, mfrOf, row.model)
      case None => s.(ignored := s.ignored + {row.model})
      case Some(mfr) => MfrState(Bump(s.counts, row.day, mfr, 1), s.ignored, s.cache[row.model := mfr])
  }

  /** The state after the rows, in order. */
  function Run(rows: seq<DriveRow>, matches: (string, string) -> bool, patterns: seq<string>,
               mfrOf: map<string, string>): MfrState
    requires ValidRules(patterns, mfrOf)
    decreases |rows|
  {
    if |rows| == 0 then Start
    else Step(Run(rows[..|rows| - 1], matches, patterns, mfrOf), rows[|rows| - 1], matches, patterns, mfrOf)
  }

  /** The rows of every batch, in order. */
  function Flatten(batches: seq<seq<DriveRow>>): seq<DriveRow>
    decreases |batches|
  {
    if |batches| == 0 then [] else Flatten(batches[..|batches| - 1]) + batches[|batches| - 1]
  }

  /** `_main`'s loops over the batches and their rows; the result is the dictionary it
      prints. */
  method CountByMfr(batches: seq<seq<DriveRow>>, matches: (string, string) -> bool, patterns: seq<string>,
                    mfrOf: map<string, string>)
    returns (counts: map<string, map<string, int>>)
    requires ValidRules(patterns, mfrOf)
    ensures counts == Run(Flatten(batches), matches, patterns, mfrOf).counts
    ensures counts == Counted(Flatten(batches), matches, patterns, mfrOf)
  {
    counts := map[];
    var ignored: set<string> := {};
    var cache: map<string, string> := map[];
    ghost var done: seq<DriveRow> := [];
    for b := 0 to |batches|
      invariant done == Flatten(batches[..b])
      invariant MfrState(counts, ignored, cache) == Run(done, matches, patterns, mfrOf)
    {
      var batch := batches[b];
      assert done + batch[..0] == done;
      for i := 0 to |batch|
        invariant MfrState(counts, ignored, cache) == Run(done + batch[..i], matches, patterns, mfrOf)
      {
        ghost var before := MfrState(counts, ignored, cache);
        var row := batch[i];
        var day := row.day;
        if row.model !in ignored {
          if row.model in cache {
            counts := Bump(counts, day, cache[row.model], 1);
          } else {
            var hit := ScanPatterns(matches, patterns, row.model);
            if hit.None? {
              ignored := ignored + {row.model};
            } else {
              var mfr := mfrOf[patterns[hit.value]];
              cache := cache[row.model := mfr];
              counts := Bump(counts, day, mfr, 1);
            }
          }
        }
        RowDone(done, batch, i, before, MfrState(counts, ignored, cache), matches, patterns, mfrOf);
      }
      FlattenSnoc(batches, b, done, batch);
      done := done + batch;
    }
    assert batches[..|batches|] == batches;
    RunCounted(done, matches, patterns, mfrOf);
  }

  /** One more row of the batch. */
  lemma {:induction false} RowDone(done: seq<DriveRow>, batch: seq<DriveRow>, i: nat, s: MfrState, s': MfrState,
                                   matches: (string, string) -> bool, patterns: seq<string>, mfrOf: map<string, string>)
    requires ValidRules(patterns, mfrOf) && i < |batch|
    requires s == Run(done + batch[..i], matches, patterns, mfrOf)
    requires s' == Step(s, batch[i], matches, patterns, mfrOf)
    ensures s' == Run(done + batch[..i + 1], matches, patterns, mfrOf)
  {
    assert (done + batch[..i + 1])[..|done| + i] == done + batch[..i];
  }

  /** The rows after one more batch. */
  lemma {:induction false} FlattenSnoc(batches: seq<seq<DriveRow>>, b: nat, done: seq<DriveRow>, batch: seq<DriveRow>)
    requires b < |batches| && done == Flatten(batches[..b]) && batch == batches[b]
    ensures Flatten(batches[..b + 1]) == done + batch
    ensures done + batch[..|batch|] == done + batch
  {
    assert batches[..b + 1][..b] == batches[..b];
    assert batch[..|batch|] == batch;
  }

  // ---------------------------------------------------------------------------------------
  // the cache changes nothing

  /** The counts the loop is meant to build, without the cache or the ignored set: every row
      whose model some pattern matches adds 1 at its day and manufacturer. */
  function Counted(rows: seq<DriveRow>, matches: (string, string) -> bool, patterns: seq<string>,
                   mfrOf: map<string, string>): map<string, map<string, int>>
    requires ValidRules(patterns, mfrOf)
    decreases |rows|
  {
    if |rows| == 0 then map[]
    else
      var last := rows[|rows| - 1];
      var prev := Counted(rows[..|rows| - 1], matches, patterns, mfrOf);
      match MfrFor(matches, patterns, mfrOf, last.model)
      case None => prev
      case Some(mfr) => Bump(prev, last.day, mfr, 1)
  }

  /** The models of the rows. */
  function ModelsOf(rows: seq<DriveRow>): set<string>
    decreases |rows|
  {
    if |rows| == 0 then {} else ModelsOf(rows[..|rows| - 1]) + {rows[|rows| - 1].model}
  }

  /** The state after `rows` holds what the patterns say: the cache has exactly the models
      seen that some pattern matches, each with its first pattern's manufacturer; the
      ignored set has exactly the models seen that none matches; the counts are `Counted`. */
  ghost predicate Resolved(s: MfrState, rows: seq<DriveRow>, matches: (string, string) -> bool, patterns: seq<string>,
                     mfrOf: map<string, string>)
    requires ValidRules(patterns, mfrOf)
  {
    && (forall m :: m in s.cache <==> m in ModelsOf(rows) && MfrFor(matches, patterns, mfrOf, m).Some?)
    && (forall m :: m in s.cache ==> MfrFor(matches, patterns, mfrOf, m) == Some(s.cache[m]))
    && (forall m :: m in s.ignored <==> m in ModelsOf(rows) && MfrFor(matches, patterns, mfrOf, m).None?)
    && s.counts == Counted(rows, matches, patterns, mfrOf)
  }

  /** The cache is transparent: after any rows, the cached manufacturer of a model is that of
      its first matching pattern, the cache and the ignored set are the models seen that do
      and do not match, and the counts are those the cache-free definition gives. */
  lemma {:induction false} RunResolved(rows: seq<DriveRow>, matches: (string, string) -> bool, patterns: seq<string>,
                                       mfrOf: map<string, string>)
    requires ValidRules(patterns, mfrOf)
    ensures Resolved(Run(rows, matches, patterns, mfrOf), rows, matches, patterns, mfrOf)
    decreases |rows|
  {
    if |rows| > 0 {
      var init := rows[..|rows| - 1];
      RunResolved(init, matches, patterns, mfrOf);
      StepResolved(Run(init, matches, patterns, mfrOf), init, rows[|rows| - 1], rows, matches, patterns, mfrOf);
    }
  }

  /** One row keeps the state resolved. */
  lemma {:induction false} StepResolved(s: MfrState, init: seq<DriveRow>, row: DriveRow, rows: seq<DriveRow>,
                                        matches: (string, string) -> bool, patterns: seq<string>, mfrOf: map<string, string>)
    requires ValidRules(patterns, mfrOf)
    requires rows == init + [row] && Resolved(s, init, matches, patterns, mfrOf)
    ensures Resolved(Step(s, row, matches, patterns, mfrOf), rows, matches, patterns, mfrOf)
  {
    assert rows[..|rows| - 1] == init;
    var r := MfrFor(matches, patterns, mfrOf, row.model);
    assert ModelsOf(rows) == ModelsOf(init) + {row.model};
    assert Counted(rows, matches, patterns, mfrOf)
      == if r.None? then s.counts else Bump(s.counts, row.day, r.value, 1);
  }

  /** The loop's counts are the cache-free ones. */
  lemma {:induction false} RunCounted(rows: seq<DriveRow>, matches: (string, string) -> bool, patterns: seq<string>,
                                      mfrOf: map<string, string>)
    requires ValidRules(patterns, mfrOf)
    ensures Run(rows, matches, patterns, mfrOf).counts == Counted(rows, matches, patterns, mfrOf)
  {
    RunResolved(rows, matches, patterns, mfrOf);
  }

  /** No model is both cached and ignored, and a model some pattern matches is never
      ignored. */
  lemma {:induction false} IgnoredNotCached(rows: seq<DriveRow>, matches: (string, string) -> bool, patterns: seq<string>,
                                            mfrOf: map<string, string>, m: string)
    requires ValidRules(patterns, mfrOf)
    ensures !(m in Run(rows, matches, patterns, mfrOf).ignored && m in Run(rows, matches, patterns, mfrOf).cache)
    ensures AnyMatch(matches, patterns, m) ==> m !in Run(rows, matches, patterns, mfrOf).ignored
  {
    RunResolved(rows, matches, patterns, mfrOf);
  }

  // ---------------------------------------------------------------------------------------
  // what each cell counts

  /** The number of rows on ISO day `day` whose model's first matching pattern gives `mfr`. */
  function RowsAt(rows: seq<DriveRow>, matches: (string, string) -> bool, patterns: seq<string>,
                  mfrOf: map<string, string>, day: string, mfr: string): nat
    requires ValidRules(patterns, mfrOf)
    decreases |rows|
  {
    if |rows| == 0 then 0
    else
      var last := rows[|rows| - 1];
      RowsAt(rows[..|rows| - 1], matches, patterns, mfrOf, day, mfr)
        + (if last.day == day && MfrFor(matches, patterns, mfrOf, last.model) == Some(mfr) then 1 else 0)
  }

  /** The number of rows whose model some pattern matches. */
  function MatchedRows(rows: seq<DriveRow>, matches: (string, string) -> bool, patterns: seq<string>,
                       mfrOf: map<string, string>): nat
    requires ValidRules(patterns, mfrOf)
    decreases |rows|
  {
    if |rows| == 0 then 0
    else
      MatchedRows(rows[..|rows| - 1], matches, patterns, mfrOf)
        + (if AnyMatch(matches, patterns, rows[|rows| - 1].model) then 1 else 0)
  }

  /** Each cell counts the rows of its day and manufacturer, and exists exactly when there is
      at least one. */
  lemma {:induction false} CountedCell(rows: seq<DriveRow>, matches: (string, string) -> bool, patterns: seq<string>,
                                       mfrOf: map<string, string>, day: string, mfr: string)
    requires ValidRules(patterns, mfrOf)
    ensures var t := Counted(rows, matches, patterns, mfrOf);
      IntAt(t, day, mfr) == RowsAt(rows, matches, patterns, mfrOf, day, mfr)
      && ((day in t && mfr in t[day]) <==> RowsAt(rows, matches, patterns, mfrOf, day, mfr) > 0)
    decreases |rows|
  {
    if |rows| > 0 {
      var init := rows[..|rows| - 1];
      var last := rows[|rows| - 1];
      CountedCell(init, matches, patterns, mfrOf, day, mfr);
      var r := MfrFor(matches, patterns, mfrOf, last.model);
      if r.Some? {
        BumpElsewhere(Counted(init, matches, patterns, mfrOf), last.day, r.value, 1);
      }
    }
  }

  /** Each counted row adds exactly 1 to the counters, so their total is the number of rows
      whose model some pattern matches. */
  lemma {:induction false} CountedTotal(rows: seq<DriveRow>, matches: (string, string) -> bool, patterns: seq<string>,
                                        mfrOf: map<string, string>)
    requires ValidRules(patterns, mfrOf)
    ensures TotalInts(Counted(rows, matches, patterns, mfrOf)) == MatchedRows(rows, matches, patterns, mfrOf)
    decreases |rows|
  {
    if |rows| == 0 {
      TotalIntsEmpty(Counted(rows, matches, patterns, mfrOf));
    } else {
      var init := rows[..|rows| - 1];
      var last := rows[|rows| - 1];
      CountedTotal(init, matches, patterns, mfrOf);
      var r := MfrFor(matches, patterns, mfrOf, last.model);
      if r.Some? {
        TotalIntsBump(Counted(init, matches, patterns, mfrOf), last.day, r.value, 1);
      }
    }
  }
}
