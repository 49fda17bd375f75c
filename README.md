# Backblaze drive-stats analysis, modelled in Dafny

This project models the core of the Backblaze drive-stats analysis scripts. Those scripts read
Backblaze's daily per-drive records from CSV files, parquet files and an Iceberg table. They
turn the records into annualized failure rate (AFR) tables, drive-count distributions, and
spreadsheet-ready CSV and XLSX layouts.

The model covers the following:
- the drive-model name normalizer;
- the calendar-quarter arithmetic;
- the per-model and per-family running sums the AFR is computed from;
- the quarterly walks over the record stream;
- the stats worker pipeline, as a fold over its messages;
- the culling and re-labelling of drive models;
- the xlsx and CSV layouts;
- the small ETL, Avro and Iceberg helpers.

Each script's imperative routines are Dafny methods with loop invariants. Each method is proved
against a specification function, and the properties the scripts promise are stated as lemmas
about those functions. Python's own behaviour that the scripts rely on is written out in shared
modules: `split()`, `strip()`, `str.isspace`, `int()`, `str(n)`, `f"{n:,}"` and the ordering of
strings. The exceptions the scripts can raise are modelled as the `PyError` values of a
`Result`.

| Dafny file | module | models |
|---|---|---|
| wrappers.dfy | Wrappers | `Option`, `Result` and the Python exceptions raised (`PyError`) |
| text.dfy | Text | `split()`, `split(' ')`, `strip()`, whitespace collapsing, prefixes |
| numerals.dfy | Numerals | `str(n)`, `f"{n:,}"`, `f"{n:2}"`, `int(text)` |
| order.dfy | Order | Python's string ordering, sorted enumeration of sets, maxima |
| calendar.dfy | Calendar | the part of `datetime.date` the scripts use |
| quarters.dfy | Quarters | year/quarter labels, quarter starts and ends, quarter increments |
| patterns.dfy | Patterns | the regular expressions read from JSON files, as a predicate the caller passes in |
| normalizer.dfy | Normalizer | backblaze_drive_stats_data.py and the normalizers of the quarterly scripts |
| tallies.dfy | Tallies | nested-dictionary counters (drive days, failures) |
| afr_walk.dfy | AfrWalk | the running-sum quarterly AFR walk (afr_parquet_to_quarterly_csv.py, afr_viz_csv.py) |
| stats_producer.dfy | StatsProducer | partitions and batch processing of afr_parquet_to_quarterly_csv.py |
| stats_aggregator.dfy | StatsAggregator | `_afr_stats_worker` as a fold over the message list |
| aggregate_facts.dfy | AggregateFacts | facts about the worker's aggregate |
| stats_post.dfy | StatsPost | culling, deploy counts and re-labelling of drive models |
| viz_csv.dfy | VizCsv | afr_viz_csv.py |
| iceberg_walk.dfy | IcebergWalk | afr_viz_csv_from_iceberg.py |
| xlsx_viz_data.dfy | XlsxVizData | `_create_xlsx_viz_data` of quarterly_afr_xlsx_from_iceberg.py |
| xlsx_sheet.dfy | XlsxSheet | column letters, multi-ranges and the row writers of quarterly_afr_xlsx_from_iceberg.py |
| compute_afr.dfy | ComputeAfr | compute_afr.py |
| drive_distribution.dfy | DriveDistribution | generate_drive_distribution_csv.py |
| human_readable.dfy | HumanReadable | generate_human_readable_afr_data.py |
| mfr_distribution.dfy | MfrDistribution | drive_distribution_by_mfr.py |
| parquet_csv.dfy | ParquetCsv | afr_parquet_to_csv.py |
| excel_csv.dfy | ExcelCsv | convert_afr_csv_to_excel_csv.py |
| etl_pipeline.dfy | EtlPipeline | etl_pipeline.py |
| avro.dfy | IcebergAvro | iceberg_csv_to_avro.py |
| iceberg_table.dfy | IcebergTable | iceberg_table.py |

## Model

| member | source | states |
|---|---|---|
| Numerals.Decimal | afr_parquet_to_quarterly_csv.py:249 | `str(n)` is a non-empty digit string without a leading zero |
| Numerals.DecimalValue | afr_parquet_to_quarterly_csv.py:249 | reading back the digits of `str(n)` gives `n` |
| Numerals.DecimalInjective | afr_parquet_to_quarterly_csv.py:249 | `str(n)` is one-to-one, so distinct counts give distinct labels |
| Numerals.Grouped | afr_parquet_to_quarterly_csv.py:249 | `f"{n:,}"` is made of digits and commas only |
| Numerals.GroupedCommas | afr_parquet_to_quarterly_csv.py:249 | the commas sit every fourth place from the right and never at either end |
| Numerals.GroupedDigits | afr_parquet_to_quarterly_csv.py:249 | taking the commas out of `f"{n:,}"` leaves `str(n)` |
| Numerals.PadLeft2 | etl_pipeline.py:27-28 | `f"{n:2}"` is `str(n)` right-aligned with spaces in a field of at least two characters |
| Numerals.ParseInt | compute_afr.py:101-102 | `int(text)` succeeds only on text with something left after stripping |
| Numerals.ParseDigits | compute_afr.py:101-102 | `int(d)` is the value of a plain digit string `d` |
| Numerals.ParseDecimal | compute_afr.py:101-102 | `int(str(n)) == n` and `int('-' + str(n)) == -n` |
| Numerals.ParseIntRejects | compute_afr.py:101-102 | blank text, or text with a character that is no whitespace, digit, sign or underscore, raises ValueError |
| Numerals.ParseIntText | convert_afr_csv_to_excel_csv.py:21 | `int(str(n)) == n` for every integer |
| Order.LessTransitive | afr_viz_csv.py:332 | Python's string `<` is transitive |
| Order.LessTotal | afr_viz_csv.py:332 | any two distinct strings are ordered one way or the other |
| Order.Least | afr_viz_csv.py:332 | the smallest string of a non-empty set is in it and at most every member |
| Order.Sorted | afr_viz_csv.py:332 | `sorted(keys)` lists exactly the keys, as many as there are |
| Order.SortedAscending | afr_viz_csv.py:332 | `sorted(keys)` is strictly ascending |
| Order.AscendingUnique | afr_viz_csv.py:332 | two ascending sequences with the same members are equal, so any ascending enumeration is `sorted` |
| Order.SortedUnique | afr_viz_csv.py:332 | an ascending enumeration of a set is `sorted` of it |
| Order.SortedDistinct | generate_drive_distribution_csv.py:170 | `sorted(set)` lists each member once |
| Order.Enumerate | afr_viz_csv.py:343 | iterating a dictionary visits each key once |
| Order.Max2 | generate_drive_distribution_csv.py:125 | `max(a, b)` is one of the two and at least both |
| Order.Greatest | iceberg_table.py:27 | `sorted(s)[-1]` is a member of `s` at least every member |
| Order.SortedInts | convert_afr_csv_to_excel_csv.py:57 | `sorted` of a set of integers is ascending and lists exactly its members |
| Order.AscendingIntsUnique | convert_afr_csv_to_excel_csv.py:57 | an ascending sequence of integers is determined by its members |
| Patterns.FirstIndex | generate_human_readable_afr_data.py:97-100 | the index of a pattern that matches with none before it matching, or none exactly when no pattern matches |
| Patterns.ScanPatterns | generate_human_readable_afr_data.py:97-100 | the loop with `break` returns that first matching index, or none |
| Patterns.FirstIndexAt | generate_human_readable_afr_data.py:97-100 | a match after a run of non-matches is the first match |
| Text.Split | backblaze_drive_stats_data.py:104 | `split()` returns only non-empty tokens without whitespace |
| Text.SplitOn | generate_drive_distribution_csv.py:32 | `split(' ')` returns at least one piece, none containing the separator |
| Text.Strip | compute_afr.py:46 | the stripped text has no whitespace at either end |
| Text.StripSlice | compute_afr.py:46 | `strip()` keeps a slice of its input with only whitespace cut off around it |
| Text.StripNoSpace | compute_afr.py:46 | a text with no whitespace at either end is its own `strip()` |
| Text.SplitJoin | backblaze_drive_stats_data.py:144 | joining tokens with single spaces and splitting again gives the tokens back |
| Text.SplitStrip | compute_afr.py:46 | stripping does not change the tokens `split()` finds |
| Text.CleanIsJoinedSplit | compute_afr.py:46 | `re.sub(r'\s+', ' ', s.strip())` is the tokens of `s` joined with single spaces |
| Text.CleanCollapsed | compute_afr.py:46 | a cleaned name has no whitespace at its ends and only single spaces inside |
| Text.CleanIdempotent | compute_afr.py:46 | cleaning twice is cleaning once |
| Text.JoinSplitOn | generate_drive_distribution_csv.py:32 | splitting on a character and joining with it gives the text back |
| Text.SplitOnJoin | generate_drive_distribution_csv.py:32 | joining pieces free of the separator and splitting on it gives the pieces back |
| Text.SplitOnClean | generate_drive_distribution_csv.py:31-32 | `clean.split(' ')` is `s.split()`, except that a blank `s` gives `['']` |
| Calendar.DaysInMonth | afr_viz_csv_from_iceberg.py:143 | every month has 28 to 31 days |
| Calendar.MakeDate | afr_viz_csv_from_iceberg.py:143 | `datetime.date(y, m, d)` succeeds exactly on a representable date and returns it; otherwise it raises ValueError |
| Calendar.Zero4 | afr_parquet_to_csv.py:27 | the four-digit zero-padded year of an ISO date reads back as the year |
| Calendar.Zero2 | afr_parquet_to_csv.py:27 | the two-digit zero-padded month or day reads back as the number |
| Calendar.IsoFormat | afr_parquet_to_csv.py:27 | `isoformat()` is ten characters with dashes at positions 4 and 7 |
| Calendar.IsoFormatInjective | afr_parquet_to_csv.py:27 | distinct dates have distinct ISO texts, so keying by the text is keying by the date |
| Calendar.NextDay | generate_drive_distribution_csv.py:130 | adding one day gives a later valid date, and raises OverflowError exactly on 9999-12-31 |
| Calendar.NextDayAdjacent | generate_drive_distribution_csv.py:130 | no date lies strictly between a date and the next day |
| Calendar.BeforeFacts | generate_drive_distribution_csv.py:93 | date `<` is irreflexive, transitive and total |
| Calendar.LeastDate | compute_afr.py:117-118 | the earliest date of a non-empty set is in it and not after any member |
| Calendar.SortedDates | compute_afr.py:117-118 | `sorted(dates)` lists exactly the dates, as many as there are |
| Calendar.SortedDatesAscending | compute_afr.py:117-118 | `sorted(dates)` is strictly ascending |
| Calendar.AscendingDatesUnique | compute_afr.py:117-118 | an ascending sequence of dates is determined by its members |
| Quarters.QuarterOf | afr_viz_csv.py:201-220 | a month's quarter is 1 to 4 and the month lies in its three months |
| Quarters.MonthQuarterLookupTable | afr_viz_csv.py:201-220 | the lookup table has keys 1 to 12, each mapped to the quarter containing it |
| Quarters.MonthQuarterMap | afr_parquet_to_quarterly_csv.py:28-44 | the month-text table maps each of "01" to "12" to its quarter digit and has no other key |
| Quarters.Slice | afr_parquet_to_quarterly_csv.py:70 | Python slicing clips out-of-range bounds, giving the length it states |
| Quarters.YearQuarterOfIso | afr_parquet_to_quarterly_csv.py:69-71 | the key fails exactly when characters 5..6 name no month, with the KeyError of that text, and otherwise names the quarter of that month |
| Quarters.YearQuarterOfDate | afr_parquet_to_quarterly_csv.py:105 | on an ISO date the key is the padded year, " Q", and the quarter of the month |
| Quarters.QuarterKeysAgree | afr_viz_csv.py:164 | the string-slicing key and the `f"{year} Q{quarter}"` key agree on every date from year 1000 on |
| Quarters.QuarterStartMonth | afr_viz_csv_from_iceberg.py:195-202 | the first month of a month's quarter is 1, 4, 7 or 10 and within three months before it |
| Quarters.AlignToQuarter | afr_viz_csv_from_iceberg.py:195-206 | the walk starts on day 1 of the first date's own quarter, not after that date |
| Quarters.IncrementQuarter | afr_viz_csv_from_iceberg.py:135-143 | the step raises ValueError exactly from September (month 0) or from October 9999 (year 10000), and otherwise gives a valid first of a month |
| Quarters.IncrementQuarterStep | afr_viz_csv_from_iceberg.py:135-143 | from a quarter start the step lands on the next quarter start |
| Quarters.DisplayLabel | afr_viz_csv.py:362-376 | row `i` is labelled with a year from 1 and a quarter 1 to 4, and the labels number the rows one to one |
| Normalizer.Upper | afr_parquet_to_quarterly_csv.py:227 | the upper-cased text has the length of the original, character for character (`UpperAt`) |
| Normalizer.UpperIsToshibaMeans | afr_parquet_to_quarterly_csv.py:227 | the character-wise test is exactly `token.upper() == "TOSHIBA"` |
| Normalizer.NormalizeSeparate | afr_parquet_to_quarterly_csv.py:195-235 | a success is two single-space tokens, a manufacturer of {HGST, Seagate, Toshiba, WDC} then the raw string's last token unchanged; fewer than 1 or more than 2 tokens is the token-count ValueError |
| Normalizer.NormalizeMerged | backblaze_drive_stats_data.py:101-146 | a success is two single-space tokens, a manufacturer of {WDC/HGST, Seagate, Toshiba, WDC} then the last raw token unchanged; a wrong token count is the token-count ValueError |
| Normalizer.TwoTokens | backblaze_drive_stats_data.py:143 | joining two tokens with a space and splitting again gives the two tokens back |
| Normalizer.InferOk | backblaze_drive_stats_data.py:120-126 | a lone token that matches a model pattern is labelled and kept as the second token |
| Normalizer.SeparateAccepts | afr_parquet_to_quarterly_csv.py:198-233 | the names accepted are exactly one token matching `ST\d+` or `WU[HS]72`, or two tokens whose first upper-cases to TOSHIBA or is an expected manufacturer |
| Normalizer.MergedAccepts | backblaze_drive_stats_data.py:104-141 | the names accepted are exactly one token matching a model pattern, or two tokens whose first, after the alias table, is an expected manufacturer |
| Normalizer.MergedAliasAccepts | backblaze_drive_stats_data.py:133-139 | the alias table maps an accepted spelling into the expected set |
| Normalizer.SingleTokenMfr | backblaze_drive_stats_data.py:120-126 | a lone token is Seagate when it matches `ST\d+` (tried first), WDC/HGST when only `WU[HS]72` matches, and a ValueError otherwise |
| Normalizer.SeparateIdempotent | afr_parquet_to_quarterly_csv.py:195-235 | normalizing a normalized name gives it back unchanged |
| Normalizer.UpperOfMfrs | afr_parquet_to_quarterly_csv.py:227-228 | of the accepted manufacturers only "Toshiba" upper-cases to TOSHIBA |
| Normalizer.MergedIdempotent | backblaze_drive_stats_data.py:101-146 | normalizing a normalized name gives it back unchanged |
| Normalizer.MergedAliasFixed | backblaze_drive_stats_data.py:133-141 | the alias table leaves every expected manufacturer as it is |
| Normalizer.MergedNeverBareWdcOrHgst | backblaze_drive_stats_data.py:133-141 | a merged name never starts with a bare WDC or HGST |
| Normalizer.MergedWdcForms | backblaze_drive_stats_data.py:108-143 | a WDC model normalizes to "WDC/HGST <model>" whether it comes bare, after WDC or after HGST |
| Normalizer.NormalizeSeries | backblaze_drive_stats_data.py:92-98 | on success one normalized name per raw name, in order; otherwise the error of a name that fails |
| Normalizer.SeriesFirstFailure | backblaze_drive_stats_data.py:93-94 | a failed series reports the error of its first failing name, every name before it normalizing |
| Tallies.AddAt | afr_parquet_to_csv.py:29-38 | `m[k1][k2] += d`, creating the entries at zero: the keys gain `k1` and `k2`, and the cell holds its old value (or zero) plus `d` |
| Tallies.AddAtElsewhere | afr_parquet_to_csv.py:29-38 | every other cell and every other first key is left as it was |
| Tallies.AddAtCell | afr_parquet_to_csv.py:29-38 | the cell looked at grows by `d` exactly when it is the one added to, and exists afterwards exactly when it existed or was added to |
| Tallies.SumValuesUpdate | drive_distribution_by_mfr.py:57-62 | replacing one value of a counter changes its sum by the difference |
| Tallies.TotalDrivesAddAt | afr_parquet_to_csv.py:37 | adding to one cell adds that many drive-days to the total over every cell |
| Tallies.TotalDrivesUpdate | afr_parquet_to_csv.py:29-38 | replacing one inner counter replaces its drives in the total |
| Tallies.SumDrivesAddAt | afr_parquet_to_csv.py:29-38 | adding to one cell adds to its inner counter's drives |
| Tallies.TotalDrivesRemove | afr_parquet_to_quarterly_csv.py:267-268 | deleting a first key removes its drives from the total |
| Tallies.SeqSumAll | afr_viz_csv.py:240-245 | along a duplicate-free list of all its keys, the running total is the sum of the counter, whatever the order |
| Tallies.SumAtAll | afr_viz_csv.py:240-245 | the running (drive-days, failures) total along all keys ends at the counter's totals |
| Tallies.Bump | drive_distribution_by_mfr.py:57-62 | `m[k1][k2] += n`, creating the entries at zero: the keys gain `k1` and `k2`, and the cell holds its old value (or zero) plus `n` |
| Tallies.BumpElsewhere | drive_distribution_by_mfr.py:57-62 | every other cell is left as it was, and which cells exist only gains `(k1, k2)` |
| Tallies.TotalIntsBump | drive_distribution_by_mfr.py:57-62 | `m[k1][k2] += n` adds `n` to the total over every cell |
| ComputeAfr.FamilyMappings | compute_afr.py:30-36 | one mapping per regex of a family, in list order, each paired with that family |
| ComputeAfr.RegexMapMembers | compute_afr.py:29-36 | one mapping per regex over all families, and a (regex, family) pair is listed exactly when that family lists that regex |
| ComputeAfr.GenerateRegexMap | compute_afr.py:27-38 | the nested append loops build exactly the family-ordered mapping list |
| ComputeAfr.AppendFamily | compute_afr.py:30-36 | the inner loop appends that family's mappings to what was there |
| ComputeAfr.LastFamilyIsLast | compute_afr.py:77-83 | without `break` the last match wins: the family is that of a matching mapping after which none matches, and there is none exactly when no mapping matches |
| ComputeAfr.AddFamiliesKeys | compute_afr.py:85-86 | resolving a model adds an empty dictionary for each matching family that had none and changes nothing else |
| ComputeAfr.ParseCsvData | compute_afr.py:62-104 | the row loop returns the table of the fold over the rows, or the first exception `int()` raises |
| ComputeAfr.ParseRow | compute_afr.py:66-102 | the loop body is one step of that fold |
| ComputeAfr.ResolveFamily | compute_afr.py:71-87 | the inner mapping loop adds the matching families' dictionaries and ends on the last match |
| ComputeAfr.ErrPersists | compute_afr.py:101-102 | once a row's count fails to parse, the whole loop has raised that error |
| ComputeAfr.FoldCurrent | compute_afr.py:71-74 | remembering the previous model is transparent: the family in hand is always the one resolving the last row's cleaned model afresh gives |
| ComputeAfr.FoldFamilies | compute_afr.py:77-86 | a family has a dictionary exactly when one of its regexes matches some row's cleaned model, even when it is not the last match |
| ComputeAfr.FoldCells | compute_afr.py:91-102 | each (family, date) entry holds the sums of the counts of the rows resolved to that family on that date, and exists exactly when there is such a row; unresolved rows add nothing |
| ComputeAfr.FamilyHasDates | compute_afr.py:77-102 | a family has a date exactly when some row's model resolves to it |
| ComputeAfr.PrepAlongDays | compute_afr.py:128-143 | along ascending days, each entry is its own day with its own sums; the day index starts at 1 and grows strictly, by the days between the dates |
| ComputeAfr.PrepAlongSums | compute_afr.py:132-140 | the cumulative fields are running sums: the first day's own sums, then each day's sums added to the previous |
| ComputeAfr.PrepOfUnique | compute_afr.py:117-118 | a family's prepped list is unique, since its ascending listing of dates is |
| ComputeAfr.PrepListDates | compute_afr.py:117-143 | a family's list holds each of its dates once, ascending, with that date's sums, and the day index is 1 on the first |
| ComputeAfr.PrepListSums | compute_afr.py:128-143 | the cumulative fields are running sums that end at the family's totals |
| ComputeAfr.PrepFamily | compute_afr.py:117-143 | one family's loop: IndexError exactly when the family has no date, and otherwise that family's prepped list |
| ComputeAfr.PrepDays | compute_afr.py:128-143 | the inner loop along given days builds the prepped entries of those days |
| ComputeAfr.PrepCsvDataForAfrCalc | compute_afr.py:107-147 | IndexError exactly when some family has no date; otherwise every family, and only those, with its prepped list |
| ComputeAfr.PrepFamilies | compute_afr.py:115-143 | the outer loop over given families raises exactly when one of them has no date, and otherwise stores each family's list |
| ComputeAfr.EarlierMatchLeftEmpty | compute_afr.py:77-86 | as written: a model matching regexes of two families leaves the first family with an empty dictionary, which makes the prep raise IndexError |
| ComputeAfr.BothFamiliesAdded | compute_afr.py:77-86 | both families of two matching mappings get a dictionary, and the second is the family in hand |
| ComputeAfr.CountedNonEmpty | compute_afr.py:91-102 | some row is counted under a family on a date exactly when some row resolves to that family on that date |
| ComputeAfr.PrepSkippingEmpty | compute_afr.py:115-122 | corrected: families with no date are skipped, so the prep always succeeds and keeps exactly the families with a date, each with its prepped list |
| ComputeAfr.PrepNonEmpty | compute_afr.py:115-122 | the corrected outer loop stores the prepped list of every given family that has a date, and no other |
| DriveDistribution.DigitRun | generate_drive_distribution_csv.py:43-45 | the digit run at the front of a string is all digits and is followed by a non-digit or the end |
| DriveDistribution.StNmPrefixMeans | generate_drive_distribution_csv.py:44 | `ST\d+NM` matches at the start exactly when "ST", a non-empty digit run and "NM" follow one another there |
| DriveDistribution.CleanModelMeans | generate_drive_distribution_csv.py:31-53 | the cleaned name is the last word when there are several words and it starts with a recognised model code, and otherwise the words joined by single spaces |
| DriveDistribution.WordIsFixed | generate_drive_distribution_csv.py:31-53 | a single word is left unchanged |
| DriveDistribution.JoinedIsFixed | generate_drive_distribution_csv.py:31-53 | words joined by single spaces are left unchanged unless a recognised code ends a list of several |
| DriveDistribution.CleanModelIdempotent | generate_drive_distribution_csv.py:31-53 | cleaning a cleaned name changes nothing |
| DriveDistribution.PromotesModelCode | generate_drive_distribution_csv.py:37-51 | "WDC WUH721816ALE6L4" and "WUH721816ALE6L4" both clean to "WUH721816ALE6L4" |
| DriveDistribution.DailyErrPersists | generate_drive_distribution_csv.py:79-80 | once a row's `int(model_count)` has raised, the whole loop has raised that error |
| DriveDistribution.GetDailyDriveDistribution | generate_drive_distribution_csv.py:56-82 | the row loop, with its pattern loop and `break`, returns the table of the fold over the rows, or the first error |
| DriveDistribution.DailyStepCell | generate_drive_distribution_csv.py:62-80 | one row adds its count to its own (date, cleaned model) cell when some pattern matches, and changes no other cell |
| DriveDistribution.DailyCell | generate_drive_distribution_csv.py:61-80 | each cell holds the sum of the counts of the rows kept under its date and cleaned model, and exists exactly when there is such a row |
| DriveDistribution.MaxIntoGrows | generate_drive_distribution_csv.py:121-126 | folding a day in never lowers a value and raises each listed drive to at least that day's count |
| DriveDistribution.MergeDay | generate_drive_distribution_csv.py:121-126 | the loop over one day's drives folds the day in: `max(acc.get(m, 0), day[m])` for each of its drives |
| DriveDistribution.NextQuarter | generate_drive_distribution_csv.py:130 | the day after a quarter's last day is the first day of the next quarter |
| DriveDistribution.QuarterIndexMonotone | generate_drive_distribution_csv.py:87 | later dates lie in the same or a later quarter |
| DriveDistribution.NthQuarterShift | generate_drive_distribution_csv.py:130 | counting `k` quarters on is counting `k - 1` on from the next quarter |
| DriveDistribution.WalkDone | generate_drive_distribution_csv.py:93 | the outer loop stops once the start is no longer before the last date |
| DriveDistribution.WalkUnfold | generate_drive_distribution_csv.py:93-130 | at a start before the last date, the walk emits that quarter and goes on from the next quarter's first day |
| DriveDistribution.ConsumeQuarter | generate_drive_distribution_csv.py:115-126 | the inner loop pops dates into the quarter's maxima until it pops the quarter's last day, and raises IndexError when the list runs dry |
| DriveDistribution.AggregateQuarter | generate_drive_distribution_csv.py:94-130 | one turn of the outer loop: the quarter's end and label, its dates, and the first day of the next quarter |
| DriveDistribution.WalkQuarters | generate_drive_distribution_csv.py:93-130 | the outer loop emits the walk's quarters, or its error |
| DriveDistribution.SortedKeys | generate_drive_distribution_csv.py:87 | every sorted date is a key of the table |
| DriveDistribution.AggregateData | generate_drive_distribution_csv.py:85-132 | `_aggregate_data` returns the walk from the first sorted date's quarter, or IndexError on an empty table |
| DriveDistribution.ConsumeKeys | generate_drive_distribution_csv.py:115-126 | a quarter lists exactly the drives it started with and those listed on the days it consumed |
| DriveDistribution.ConsumeBounds | generate_drive_distribution_csv.py:119-126 | a quarter's value is at least its starting value and each consumed day's count |
| DriveDistribution.ConsumeAttained | generate_drive_distribution_csv.py:119-126 | a quarter's value is its starting value or one consumed day's count |
| DriveDistribution.QuarterCountStep | generate_drive_distribution_csv.py:93-130 | from a date before the last, the next quarter's first day leaves one quarter fewer to emit |
| DriveDistribution.WalkCount | generate_drive_distribution_csv.py:93-130 | a completed walk emits one quarter per quarter from the first date's to the last date's, less the last one when the last date is its first day |
| DriveDistribution.WalkLabels | generate_drive_distribution_csv.py:94-111 | a completed walk labels its quarters with consecutive quarters from the first date's |
| DriveDistribution.WalkNonNegative | generate_drive_distribution_csv.py:122-126 | every value of every emitted quarter is at least the 0 each drive starts at |
| DriveDistribution.AggregateShape | generate_drive_distribution_csv.py:85-132 | when the aggregation succeeds it has that many consecutive quarters from the first date's, none with a negative value |
| DriveDistribution.ConsumeDry | generate_drive_distribution_csv.py:116-117 | when a quarter's last day is not among the dates left, the inner loop runs the list dry and `pop(0)` raises IndexError |
| DriveDistribution.SortedIs | generate_drive_distribution_csv.py:87 | an ascending list of a table's dates is `sorted` of them |
| DriveDistribution.QuarterEndFirstDay | generate_drive_distribution_csv.py:115-117 | as written: when the first quarter starts on its own last day, that quarter comes out empty and its count is counted in the next quarter, above that quarter's own days |
| DriveDistribution.MissingQuarterEnd | generate_drive_distribution_csv.py:116-117 | as written: a table without the last day of its first quarter raises IndexError |
| DriveDistribution.MaxOverKeys | generate_drive_distribution_csv.py:121-126 | the MAX fold over some days lists exactly the drives one of the days lists |
| DriveDistribution.MaxOverBounds | generate_drive_distribution_csv.py:122-126 | its value is at least 0 and at least each day's count for the drive |
| DriveDistribution.MaxOverAttained | generate_drive_distribution_csv.py:122-126 | its value is 0 or one day's count for the drive |
| DriveDistribution.IndexLabelOf | generate_drive_distribution_csv.py:111 | a date's quarter index gives back its "YYYY Qq" label |
| DriveDistribution.SortedQuarterBounds | generate_drive_distribution_csv.py:87-91 | the first sorted date is in the earliest quarter and the last sorted date in the latest |
| DriveDistribution.IntendedIs | generate_drive_distribution_csv.py:85-132 | corrected: a non-empty table of valid dates aggregates to the quarters from its first date's to its last date's |
| DriveDistribution.IntendedOk | generate_drive_distribution_csv.py:87-91 | corrected: an aggregation comes only from a non-empty table of valid dates |
| DriveDistribution.QuartersFromOwn | generate_drive_distribution_csv.py:115-126 | corrected: each day is counted in its own quarter, at least at its own count |
| DriveDistribution.QuartersFromExact | generate_drive_distribution_csv.py:119-126 | corrected: each quarter lists exactly the drives of its own days, each with the largest of their counts |
| DriveDistribution.IntendedOwnQuarter | generate_drive_distribution_csv.py:115-126 | corrected: every day is counted in its own quarter, at its position from the first quarter, whose label is the day's quarter |
| DriveDistribution.IntendedQuarterExact | generate_drive_distribution_csv.py:119-126 | corrected: each quarter lists exactly the drives listed on its own days, each with the largest of those days' counts |
| DriveDistribution.QuarterEndFirstDayIntended | generate_drive_distribution_csv.py:115-117 | corrected, on the sample that shows the first defect: 9 in 2023 Q1 and 7 in 2023 Q2 |
| DriveDistribution.MissingQuarterEndIntended | generate_drive_distribution_csv.py:116-117 | corrected, on the sample that shows the second defect: one quarter, 2023 Q1, with the larger count |
| DriveDistribution.ClampedIdentity | generate_drive_distribution_csv.py:140-146 | clamping at the 0 that `max_drives_by_drive` always holds changes no count that is at least 0 |
| DriveDistribution.ClampQuarter | generate_drive_distribution_csv.py:142-146 | the first pass over one quarter writes back `max(0, c)` for each count `c`, and the recorded maxima stay 0 |
| DriveDistribution.KeepAtLeast | generate_drive_distribution_csv.py:154-156 | the second pass keeps exactly the drives whose count is at least the minimum, with their counts |
| DriveDistribution.ApplyMinDriveFilter | generate_drive_distribution_csv.py:135-160 | the same quarters with the same labels, each keeping exactly the drives whose clamped count is at least the minimum |
| DriveDistribution.FilterAggregated | generate_drive_distribution_csv.py:135-160 | on aggregated data the first pass changes no count, so each quarter keeps exactly the drives whose own count is at least the minimum |
| DriveDistribution.DriveNamesMeans | generate_drive_distribution_csv.py:164-168 | a name is collected exactly when some quarter lists it |
| DriveDistribution.GetSortedDriveModels | generate_drive_distribution_csv.py:163-170 | every drive named in any quarter, once each, ascending |
| HumanReadable.ReadErrPersists | generate_human_readable_afr_data.py:24-45 | once a row raises, the read ends with that error whatever rows follow |
| HumanReadable.ReadUnfold | generate_human_readable_afr_data.py:24-45 | reading one more row applies the row step to the dictionary read so far |
| HumanReadable.ReadStepIs | generate_human_readable_afr_data.py:25-45 | a row whose `drive_count` does not parse raises that error, then one whose `failure_count` does not; otherwise the model's cell for the day grows by both counts, created at zero if new |
| HumanReadable.ReadTrinoCsv | generate_human_readable_afr_data.py:18-47 | the loop with its set of known models builds the dictionary the row-by-row read defines |
| HumanReadable.ReadKeys | generate_human_readable_afr_data.py:27-31 | the dictionary lists each cleaned model once, in the order of its first row |
| HumanReadable.ReadStepCell | generate_human_readable_afr_data.py:36-45 | one row adds its two counts to its own (model, day) cell and changes no other |
| HumanReadable.ReadCell | generate_human_readable_afr_data.py:24-45 | each cell holds the sums of `drive_count` and `failure_count` over the rows of its model and day, and exists exactly when such a row does |
| HumanReadable.MaxDrives | generate_human_readable_afr_data.py:151-160 | the result is at least 0 and every day's drive count, and is 0 or some day's count |
| HumanReadable.MaxDrivesUnique | generate_human_readable_afr_data.py:151-160 | those properties determine the maximum |
| HumanReadable.GetMaxDrivesDeployed | generate_human_readable_afr_data.py:151-160 | the loop's running maximum, started at 0, is an upper bound attained by some day (or 0) |
| HumanReadable.Take | generate_human_readable_afr_data.py:115 | `min(91, left)`: never more than 91 or than the days left, and at least one day while any are left |
| HumanReadable.IncrementCount | generate_human_readable_afr_data.py:113-140 | a model with `n` days is walked in `ceil(n / 91)` increments |
| HumanReadable.IncrementAt | generate_human_readable_afr_data.py:113-140 | increment `i` covers days `91 i` to `91 i + 90` (or the last day) with the counters of its number |
| HumanReadable.IncrementsDrop | generate_human_readable_afr_data.py:113-140 | the increments from `i` on are those of the days from `91 i` on |
| HumanReadable.CounterLabels | generate_human_readable_afr_data.py:112-125 | quarter `inc % 4` (4 for 0), the year counter bumped at quarter 1, agree with `DisplayLabel(inc - 1)` |
| HumanReadable.TrinoData.constructor | generate_human_readable_afr_data.py:164 | the dictionary the walk is given is the one read |
| HumanReadable.WalkedAll | generate_human_readable_afr_data.py:113 | when no days are left the lines written are the increments of all days |
| HumanReadable.WalkStep | generate_human_readable_afr_data.py:114-140 | one more increment's line keeps the walk's invariant |
| HumanReadable.SortDays | generate_human_readable_afr_data.py:114 | `sorted(days)` is the ascending list of the days left |
| HumanReadable.NextIncrement | generate_human_readable_afr_data.py:114-138 | the next `min(91, left)` days are taken from the front and deleted, and the dictionary shrinks |
| HumanReadable.NextLabel | generate_human_readable_afr_data.py:120-125 | the quarter and year counters of increment `inc` are its display label, and the year counter moves on |
| HumanReadable.WalkPass | generate_human_readable_afr_data.py:114-140 | one loop pass writes the next increment's line, deletes its days and keeps the invariant |
| HumanReadable.WalkDays | generate_human_readable_afr_data.py:113-140 | the loop ends and its lines are the increments of all the days in ascending order |
| HumanReadable.WalkModel | generate_human_readable_afr_data.py:111-140 | a walked model's lines are the increments of its sorted days |
| HumanReadable.DrainEnd | generate_human_readable_afr_data.py:94-140 | after every model the dictionary is `Drained` and the lines are the report |
| HumanReadable.DrainStep | generate_human_readable_afr_data.py:94-140 | visiting the next model empties it exactly when it qualifies, leaving every other model as it was |
| HumanReadable.ReportStep | generate_human_readable_afr_data.py:94-140 | the report grows by that model's lines when it qualifies and by nothing otherwise |
| HumanReadable.VisitModel | generate_human_readable_afr_data.py:95-140 | a model some pattern occurs in with at least 1000 drives is announced and emptied; any other is left untouched |
| HumanReadable.GenerateHumanReadableData | generate_human_readable_afr_data.py:80-148 | every qualifying model is emptied in place, the others are untouched, and the returned data is empty |
| StatsProducer.ProcessBatch | afr_parquet_to_quarterly_csv.py:74-126 | the batch loop adds every row's model to `models_seen`, adds to `models_with_stats` exactly the newly seen models some regex matches, and ships one message holding the records of exactly the tracked rows, in row order |
| StatsProducer.TrackedAgree | afr_parquet_to_quarterly_csv.py:100-102 | whether a row is kept depends only on whether its own model is tracked |
| StatsProducer.TrackedMeans | afr_parquet_to_quarterly_csv.py:100-120 | a record is in the message exactly when some tracked row yields it, carrying that row's model, serial number and quarter key, with the failure flag set exactly for a failure value of 1 |
| StatsProducer.TrackedSource | afr_parquet_to_quarterly_csv.py:100-120 | every record comes from a tracked row |
| StatsProducer.TrackedKeeps | afr_parquet_to_quarterly_csv.py:100-120 | every tracked row's record is in the message |
| StatsProducer.ToRecordQuarter | afr_parquet_to_quarterly_csv.py:69-71 | the record's quarter key is what `_convert_date_to_year_quarter` gives for the row's ISO date |
| StatsProducer.YearPartitions | afr_parquet_to_quarterly_csv.py:436-446 | months 12 down to 1 of a year, skipping those after the current month of the current year |
| StatsProducer.AppendYear | afr_parquet_to_quarterly_csv.py:435-446 | appending one year's months keeps the partitions in range and newest first, and completes that year |
| StatsProducer.Partitions | afr_parquet_to_quarterly_csv.py:430-446 | every month from January 2013 to the current month exactly once, newest first, `12 (year - 2013) + month` of them |
| StatsAggregator.ReverseSplit | afr_parquet_to_quarterly_csv.py:305-306 | popping a list is popping its tail, then its head |
| StatsAggregator.BuildSnoc | afr_parquet_to_quarterly_csv.py:322-346 | counting one more entry applies the counter update to the state so far |
| StatsAggregator.SummarizesSnoc | afr_parquet_to_quarterly_csv.py:322-346 | counting one more entry keeps the state equal to the fold of the extended log |
| StatsAggregator.Lookup | afr_parquet_to_quarterly_csv.py:307-320 | the cached, first-sight or seen-before lookup always gives the name `_normalize_drive_model_name` gives, and keeps the cache faithful |
| StatsAggregator.Count | afr_parquet_to_quarterly_csv.py:322-346 | the cell created at zero, one more drive-day, one more failure when the record has the key, the serial number added to the model's set |
| StatsAggregator.RecordsFromStream | afr_parquet_to_quarterly_csv.py:301-353 | the number of records the worker counts is the length of the stream it reads |
| StatsAggregator.DrainBatch | afr_parquet_to_quarterly_csv.py:305-349 | the inner loop pops the batch from its end, names each record and counts it: the log grows by the batch in popping order and the state stays its fold, or the first name error is returned |
| StatsAggregator.StatsWorker | afr_parquet_to_quarterly_csv.py:277-353 | the worker loop, stopping at the `workers`-th pill, computes the fold of the record stream and counts its records |
| StatsAggregator.WorkerStream | afr_parquet_to_quarterly_csv.py:287-353 | message by message, the worker's result is the aggregate of the whole stream |
| StatsAggregator.NamedLength | afr_parquet_to_quarterly_csv.py:305-320 | naming a stream gives one entry per record |
| StatsAggregator.NamedPopStream | afr_parquet_to_quarterly_csv.py:305-320 | popping a batch onto a stream's log names the stream extended by the batch in reverse |
| StatsAggregator.NamedFromStream | afr_parquet_to_quarterly_csv.py:287-353 | naming message by message is naming the concatenated stream |
| StatsAggregator.NamedSnoc | afr_parquet_to_quarterly_csv.py:307-320 | naming one more record appends its entry, or fails with its error |
| StatsAggregator.NamedErrExtends | afr_parquet_to_quarterly_csv.py:307-320 | after the first failing name, more records do not change the error |
| StatsPost.Cull | afr_parquet_to_quarterly_csv.py:257-270 | raises KeyError for a model without a serial set, and otherwise leaves exactly the models with at least `min_drives` distinct drives |
| StatsPost.CollectCulls | afr_parquet_to_quarterly_csv.py:261-267 | the first pass lists exactly the models below the minimum, or raises KeyError for a model without a serial set |
| StatsPost.DeleteAll | afr_parquet_to_quarterly_csv.py:269-270 | deleting the listed models removes exactly those |
| StatsPost.CulledIsRemoval | afr_parquet_to_quarterly_csv.py:257-270 | deleting the models below the minimum gives the culled counters |
| StatsPost.CulledKeeps | afr_parquet_to_quarterly_csv.py:263 | a model survives exactly when its distinct-drive count reaches the minimum, with its counters untouched |
| StatsPost.CullIdempotent | afr_parquet_to_quarterly_csv.py:257-270 | culling twice with the same minimum removes nothing more |
| StatsPost.CullMonotone | afr_parquet_to_quarterly_csv.py:263 | a higher minimum keeps a subset of the models |
| StatsPost.Relabelled | afr_parquet_to_quarterly_csv.py:247-252 | the keys are the labels of the models, and each label holds its model's counters |
| StatsPost.LabelsInjective | afr_parquet_to_quarterly_csv.py:249 | distinct models get distinct labels |
| StatsPost.AddDeployCounts | afr_parquet_to_quarterly_csv.py:238-254 | raises ValueError for a model without a serial set before changing anything; otherwise, when no label is an old name, each model's counters move to its label |
| StatsPost.Rename | afr_parquet_to_quarterly_csv.py:247-252 | the in-place `data[label] = data.pop(name)` loop relabels every model when no label is an old name |
| StatsPost.RenameStep | afr_parquet_to_quarterly_csv.py:247-252 | renaming one more model keeps the others where they are |
| StatsPost.RenameDone | afr_parquet_to_quarterly_csv.py:247-252 | with every model renamed the counters are relabelled |
| StatsPost.LastOpen | afr_parquet_to_quarterly_csv.py:249 | the position found is -1 or holds a '(' |
| StatsPost.LabelOpen | afr_parquet_to_quarterly_csv.py:249 | the last '(' of a label opens its count |
| StatsPost.LabelInjective | afr_parquet_to_quarterly_csv.py:249 | a label determines the name and the count it was made from |
| StatsPost.LabelTokens | afr_parquet_to_quarterly_csv.py:249 | a two-token name gets a three-token label |
| StatsPost.TwoTokenNoClash | afr_parquet_to_quarterly_csv.py:247-252 | when every model is two tokens, no label is an old name |
| StatsPost.WorkerNames | afr_parquet_to_quarterly_csv.py:195-233 | every model the worker counts is two single-space tokens, the first a recognised manufacturer |
| StatsPost.WorkerPostprocess | afr_parquet_to_quarterly_csv.py:367-370 | the worker's counters pass the cull and the renaming without error, each surviving model under its own label |
| AggregateFacts.BuildKeys | afr_parquet_to_quarterly_csv.py:322-346 | a model has a counter, and a serial set, exactly when some record was counted under its name |
| AggregateFacts.RecordKeys | afr_parquet_to_quarterly_csv.py:322-346 | counting a record adds its name to both dictionaries |
| AggregateFacts.BuildCell | afr_parquet_to_quarterly_csv.py:322-338 | each cell holds the number of records of its model and quarter and how many of them failed, and exists exactly when there is one |
| AggregateFacts.RecordCell | afr_parquet_to_quarterly_csv.py:322-338 | one record changes only its own cell, by one drive-day and one failure when it has one |
| AggregateFacts.InCellSnoc | afr_parquet_to_quarterly_csv.py:322-338 | one more entry adds one to its own cell, and one failure when it failed |
| AggregateFacts.BuildCellBounds | afr_parquet_to_quarterly_csv.py:322-338 | every cell has at least one drive-day and no more failures than drive-days |
| AggregateFacts.BuildSerials | afr_parquet_to_quarterly_csv.py:343-346 | a model's serial set is the serial numbers of exactly its records |
| AggregateFacts.RecordSerials | afr_parquet_to_quarterly_csv.py:343-346 | counting a record adds its serial to its own model's set only |
| AggregateFacts.BuildTotal | afr_parquet_to_quarterly_csv.py:301-353 | before the cull the drive-days over every cell add up to the number of records |
| AggregateFacts.NamedOk | afr_parquet_to_quarterly_csv.py:307-320 | naming succeeds exactly when every record's model normalizes, and pairs each record with its normalized name |
| AggregateFacts.NamedErr | afr_parquet_to_quarterly_csv.py:307-320 | a failed naming reports the error of the first record whose model does not normalize |
| AggregateFacts.WorkerCounts | afr_parquet_to_quarterly_csv.py:277-353 | each cell counts the records read whose model normalizes to its model and that fall in its quarter, each serial set is their serials, and the drive-days add up to `data_records_received` |
| AggregateFacts.WorkerNameSource | afr_parquet_to_quarterly_csv.py:307-320 | every model counted is the normalization of some record's model |
| AfrWalk.Afr | afr_parquet_to_quarterly_csv.py:387-394 | `_afr_calc` raises ZeroDivisionError exactly when the drive-days are zero |
| AfrWalk.AfrScale | afr_viz_csv.py:223-230 | the AFR times the drive-days is the failures times 365 times 100 |
| AfrWalk.KeysUpToPrefix | afr_parquet_to_quarterly_csv.py:489 | in sorted order, the quarters at or before the `i`-th are the first `i + 1` |
| AfrWalk.SortedPrefix | afr_parquet_to_quarterly_csv.py:489-495 | the running sum after the `i`-th sorted quarter is the cumulative count of every quarter sorting at or before it |
| AfrWalk.SumOverSnoc | afr_parquet_to_quarterly_csv.py:490-491 | one more quarter adds its drive-days and failures to the running sums |
| AfrWalk.ModelAfr | afr_parquet_to_quarterly_csv.py:484-495 | the per-model loop fails with ZeroDivisionError exactly when some running drive-day sum is zero, and otherwise maps every quarter to the cumulative counts up to it |
| AfrWalk.TableComplete | afr_parquet_to_quarterly_csv.py:489-495 | once every sorted quarter is entered the table has every quarter |
| AfrWalk.AllModelsAfr | afr_parquet_to_quarterly_csv.py:474-497 | every model gets its own cumulative table, or ZeroDivisionError exactly when some model has a zero running sum |
| AfrWalk.AllTablesComplete | afr_viz_csv.py:233-248 | once every model is walked the result has every model |
| AfrWalk.SumOverPrefixMonotone | afr_viz_csv.py:240-245 | with non-negative cells the running sums never decrease along the quarters |
| AfrWalk.AscendingIndexOrder | afr_viz_csv.py:240 | in sorted order, a key that sorts first comes first |
| AfrWalk.UpToMonotone | afr_viz_csv.py:240-245 | a later quarter's cumulative drive-days and failures are at least an earlier one's |
| VizCsv.AfrInputData | afr_viz_csv.py:142-175 | the loop over the grouped rows builds the table the row-by-row step defines |
| VizCsv.AddRow | afr_viz_csv.py:161-172 | the model's dictionary and the quarter's entry are created at zero when missing, then the row's drives seen and failures are added to that entry |
| VizCsv.InputCell | afr_viz_csv.py:158-172 | each entry holds the sums of drives seen and failures over the rows of its model and quarter, and exists exactly when there is such a row |
| VizCsv.CellStep | afr_viz_csv.py:165-172 | one row adds its counts to its own entry and to no other |
| VizCsv.MatchingSnoc | afr_viz_csv.py:158-172 | the last row counts towards its own model and quarter only |
| VizCsv.InputModels | afr_viz_csv.py:161-162 | a model has a dictionary exactly when some row is of that model |
| VizCsv.ModelColumns | afr_viz_csv.py:336-341 | one column per model, in order, each `f"{model} ({deployed:,})"` |
| VizCsv.HeaderAndDepth | afr_viz_csv.py:325-343 | the first loop fails exactly when some model has no deploy count, and otherwise gives "Year", "Quarter" and the model columns in sorted order, with the largest number of quarters of any model |
| VizCsv.HeaderNext | afr_viz_csv.py:332-343 | one more model adds its column and raises the count to its number of quarters if larger |
| VizCsv.HeaderEnd | afr_viz_csv.py:332-343 | after every model the header and the count are the intended ones |
| VizCsv.Column | afr_viz_csv.py:347-350 | a model's list holds its values in ascending quarter order, one per quarter |
| VizCsv.ModelColumn | afr_viz_csv.py:349-350 | the inner loop appends the values in sorted quarter order |
| VizCsv.ColumnLists | afr_viz_csv.py:346-350 | one list per model, each that model's values in sorted quarter order |
| VizCsv.AddColumn | afr_viz_csv.py:347-350 | storing one more model's list keeps the invariant |
| VizCsv.ListsEnd | afr_viz_csv.py:346-350 | after every model each has its list |
| VizCsv.DataRows | afr_viz_csv.py:362-386 | `max_quarters` rows, row `i` labelled with the `i`-th display year and quarter and holding each model's `i`-th value, or an empty cell once its list is exhausted |
| VizCsv.PoppedRow | afr_viz_csv.py:379-384 | popping the lists left after `i` rows gives each list's `i`-th value and leaves what is left after `i + 1` |
| VizCsv.PopFronts | afr_viz_csv.py:379-384 | `pop(0)` on each list that is not empty, every other list untouched |
| VizCsv.GenerateOutput | afr_viz_csv.py:321-386 | fails exactly when a model has no deploy count; otherwise writes the header and `max_quarters` rows, row `i` holding every model's value of its `i`-th sorted quarter |
| VizCsv.ColumnRows | afr_viz_csv.py:362-386 | the rows read off the per-model lists are the table's rows |
| VizCsv.RowsFromColumns | afr_viz_csv.py:362-386 | rows holding the lists' `i`-th values hold the models' `i`-th quarter values |
| VizCsv.HeaderDistinct | afr_viz_csv.py:325-341 | the header has one column per model plus two, all different, so no two `DictWriter` columns collide |
| VizCsv.FixedThenDistinct | afr_viz_csv.py:325-328 | "Year" and "Quarter" before distinct labels keep the header distinct |
| VizCsv.ColumnsDistinct | afr_viz_csv.py:338-340 | different models get different column labels |
| VizCsv.LabelNotFixed | afr_viz_csv.py:338 | no label is "Year" or "Quarter" |
| VizCsv.MaxQuartersBound | afr_viz_csv.py:343 | no model has more quarters than there are data rows |
| VizCsv.MaxQuartersAttained | afr_viz_csv.py:343 | some model has exactly as many quarters as there are data rows, so the last row is not empty |
| VizCsv.EveryValueShown | afr_viz_csv.py:346-386 | every value of every model is written: its `i`-th sorted quarter's value goes to data row `i`, which exists |
| IcebergWalk.StartOrder | afr_viz_csv_from_iceberg.py:212 | between quarter starts, date order is quarter order |
| IcebergWalk.QuarterIndexMonotone | afr_viz_csv_from_iceberg.py:195-212 | a later date is in the same or a later quarter |
| IcebergWalk.Earliest | afr_viz_csv_from_iceberg.py:185 | the `min()` of the date column: a row's date at or before every row's |
| IcebergWalk.Latest | afr_viz_csv_from_iceberg.py:186 | the `max()` of the date column: a row's date at or after every row's |
| IcebergWalk.ModelQuarters | afr_viz_csv_from_iceberg.py:178-258 | one model's earliest and latest dates, then the walk between their quarters |
| IcebergWalk.WalkQuarters | afr_viz_csv_from_iceberg.py:209-258 | the `while quarter_start_date <= max` loop computes the walk from the quarter of the earliest row |
| IcebergWalk.QuarterStep | afr_viz_csv_from_iceberg.py:214-258 | one pass: the quarter's entry and sums when it has at least `min_drives` drives, nothing otherwise, then the next quarter start, or the exception that ends the walk |
| IcebergWalk.NextStart | afr_viz_csv_from_iceberg.py:135-143 | the next quarter's start, strictly later, or ValueError exactly after October 9999 |
| IcebergWalk.NextStartAgrees | afr_viz_csv_from_iceberg.py:135-143 | on a quarter start, `_increment_datetime_one_quarter` is that next start |
| IcebergWalk.WalkStep | afr_viz_csv_from_iceberg.py:212-258 | the walk is this quarter's entry (none with too few drives) followed by the walk from the next quarter |
| IcebergWalk.AddQuarter | afr_viz_csv_from_iceberg.py:237-238 | the running sums grow by exactly the quarter's drive-days and failures |
| IcebergWalk.WalkOkStep | afr_viz_csv_from_iceberg.py:212-258 | a successful walk moves to the next quarter start and adds this quarter to the sums only when it has enough drives |
| IcebergWalk.WalkWithin | afr_viz_csv_from_iceberg.py:212-254 | every entry is a quarter start between the first and the last with at least `min_drives` drives, carrying its drive count |
| IcebergWalk.WalkAscending | afr_viz_csv_from_iceberg.py:212-258 | the entries' quarter starts strictly ascend |
| IcebergWalk.WalkChained | afr_viz_csv_from_iceberg.py:237-254 | each entry's sums are the previous entry's plus its own quarter: nothing else is added and nothing reset |
| IcebergWalk.WalkComplete | afr_viz_csv_from_iceberg.py:212-258 | every quarter in range with enough drives has an entry |
| IcebergWalk.NextNotAfter | afr_viz_csv_from_iceberg.py:258 | no quarter start lies strictly between a start and the next |
| IcebergWalk.Walks | afr_viz_csv_from_iceberg.py:163-258 | one walk per model with rows |
| IcebergWalk.AllModels | afr_viz_csv_from_iceberg.py:146-281 | every model walked in sorted order, the table built as the model-by-model definition says |
| IcebergWalk.WalksListed | afr_viz_csv_from_iceberg.py:153-163 | every listed model has its own walk |
| IcebergWalk.WalkNames | afr_viz_csv_from_iceberg.py:163-270 | the model loop builds the table over the listed models in order |
| IcebergWalk.TableGrows | afr_viz_csv_from_iceberg.py:245-254 | a model whose walk succeeds gets a key exactly when it has quarters |
| IcebergWalk.TableFails | afr_viz_csv_from_iceberg.py:163-258 | a model whose walk raises makes the whole result that error |
| IcebergWalk.ModelsTableSnoc | afr_viz_csv_from_iceberg.py:163-270 | the table over one more model |
| IcebergWalk.ErrorPersists | afr_viz_csv_from_iceberg.py:163-270 | once a walk raises, later models change nothing |
| IcebergWalk.ModelsTableKeys | afr_viz_csv_from_iceberg.py:245-254 | a model has a key exactly when it is listed and its walk lists a quarter, and its value is that list |
| IcebergWalk.ModelsTableOk | afr_viz_csv_from_iceberg.py:163-270 | a successful table means every model's walk succeeded |
| IcebergWalk.WindowOverlap | afr_viz_csv_from_iceberg.py:215-221 | as written, a row in the first month of a quarter passes the previous quarter's filter too |
| IcebergWalk.SampleRows | afr_viz_csv_from_iceberg.py:178-182 | the sample rows have valid dates |
| IcebergWalk.WindowDoubleCount | afr_viz_csv_from_iceberg.py:215-238 | with the filter as written an April day is counted in two quarters |
| IcebergWalk.WindowCountedOnce | afr_viz_csv_from_iceberg.py:215-238 | with the three-month filter each day is counted once |
| IcebergWalk.JanAsWritten | afr_viz_csv_from_iceberg.py:215-226 | as written, January's filter keeps the April day too |
| IcebergWalk.AprAsWritten | afr_viz_csv_from_iceberg.py:215-226 | April's filter keeps the April day |
| IcebergWalk.JanInQuarter | afr_viz_csv_from_iceberg.py:215-226 | the three-month filter keeps only the January day for January |
| IcebergWalk.AprInQuarter | afr_viz_csv_from_iceberg.py:215-226 | the three-month filter keeps the April day for April |
| IcebergWalk.StatsTwoSame | afr_viz_csv_from_iceberg.py:222-226 | two rows of one drive are one drive and two drive-days |
| IcebergWalk.CountOne | afr_viz_csv_from_iceberg.py:215-226 | a single kept row is one drive, one day and its failure flag |
| IcebergWalk.QuarterWindowExact | afr_viz_csv_from_iceberg.py:215-221 | the three-month filter keeps a row for exactly the start of the quarter that holds it |
| XlsxVizData.PutList | quarterly_afr_xlsx_from_iceberg.py:900-908 | `m[k1][k2] = l`, creating `m[k1]`: the keys gain `k1` and `k2`, the cell holds `l`, and every other first key is untouched |
| XlsxVizData.MarkLast | quarterly_afr_xlsx_from_iceberg.py:941-944 | the list keeps its length and all but its last entry; the last entry's removed drives become its failure count exactly when it is in the greatest quarter |
| XlsxVizData.Matching | quarterly_afr_xlsx_from_iceberg.py:895 | every row kept is of that manufacturer and model |
| XlsxVizData.Qualifying | quarterly_afr_xlsx_from_iceberg.py:916 | every row kept had at least `min_drives` drives deployed |
| XlsxVizData.ModelEntries | quarterly_afr_xlsx_from_iceberg.py:910-927 | a model computed on its own fails only with ZeroDivisionError |
| XlsxVizData.ModelEntriesShape | quarterly_afr_xlsx_from_iceberg.py:916-927 | a model's entries are its qualifying rows, one each, in order, with the rows' fields |
| XlsxVizData.FoldSums | quarterly_afr_xlsx_from_iceberg.py:903-913 | every manufacturer and model has running sums exactly when it has a row, and they are over all its rows, qualifying or not |
| XlsxVizData.FoldModel | quarterly_afr_xlsx_from_iceberg.py:894-927 | every manufacturer and model has a list exactly when it has a row, and the list is its own entries, each with the AFR of all its rows up to it |
| XlsxVizData.MatchingSnoc | quarterly_afr_xlsx_from_iceberg.py:894-895 | the last row joins the rows of its own manufacturer and model only |
| XlsxVizData.StepModel | quarterly_afr_xlsx_from_iceberg.py:895-927 | one row changes the sums, the keys and the list of its own manufacturer and model only |
| XlsxVizData.StepSums | quarterly_afr_xlsx_from_iceberg.py:910-913 | one row adds its drive-days and failures to its model's running sums |
| XlsxVizData.StepList | quarterly_afr_xlsx_from_iceberg.py:916-927 | one row appends an entry to its model's list exactly when it qualifies |
| XlsxVizData.FoldMfrs | quarterly_afr_xlsx_from_iceberg.py:900-908 | every manufacturer the loop leaves holds at least one model |
| XlsxVizData.FoldSnoc | quarterly_afr_xlsx_from_iceberg.py:894 | a successful loop succeeded on all but the last row, then on the last |
| XlsxVizData.Labels | quarterly_afr_xlsx_from_iceberg.py:896 | one `f"{year} Q{quarter}"` label per row |
| XlsxVizData.MaxLabelBounds | quarterly_afr_xlsx_from_iceberg.py:889-897 | no label is greater than the running maximum, which is "1970 Q1" or one of the labels |
| XlsxVizData.FoldMaxQuarter | quarterly_afr_xlsx_from_iceberg.py:889-897 | the greatest label the loop keeps is the running maximum of the rows' labels |
| XlsxVizData.StepMax | quarterly_afr_xlsx_from_iceberg.py:897 | one row's step takes the larger label |
| XlsxVizData.VizDataMfrs | quarterly_afr_xlsx_from_iceberg.py:900-946 | the result keeps a manufacturer exactly when some row is of it, even when none of its models survive |
| XlsxVizData.VizDataModel | quarterly_afr_xlsx_from_iceberg.py:885-946 | a model is kept exactly when one of its rows qualifies; its list is its own entries, the last one marked when it is in the greatest quarter of all rows |
| XlsxVizData.CreateXlsxVizData | quarterly_afr_xlsx_from_iceberg.py:885-946 | the row loop and then the cleanup compute the defined result |
| XlsxVizData.FoldErrPersists | quarterly_afr_xlsx_from_iceberg.py:894-895 | once a row raises, the whole loop raises that error |
| XlsxVizData.AddQuarterRow | quarterly_afr_xlsx_from_iceberg.py:895-927 | the loop body is the row step |
| XlsxVizData.CleanupData | quarterly_afr_xlsx_from_iceberg.py:932-944 | the cleanup loop over manufacturers in sorted order computes the cleanup |
| XlsxVizData.CleanupMfrsInOrder | quarterly_afr_xlsx_from_iceberg.py:932-944 | cleaning the manufacturers in any listed order gives the cleanup |
| XlsxVizData.CleanupModels | quarterly_afr_xlsx_from_iceberg.py:935-944 | one manufacturer's models: empty lists deleted, the others marked |
| XlsxVizData.CleanupInOrder | quarterly_afr_xlsx_from_iceberg.py:935-944 | cleaning the models in any listed order gives the same result |
| XlsxVizData.CleanStep | quarterly_afr_xlsx_from_iceberg.py:938-944 | cleaning one more model keeps the invariant |
| XlsxVizData.CleanEnd | quarterly_afr_xlsx_from_iceberg.py:935-944 | with every model cleaned the result is the cleanup |
| XlsxVizData.CleanupModel | quarterly_afr_xlsx_from_iceberg.py:938-944 | an empty list is deleted, otherwise its last entry is marked |
| XlsxSheet.ColumnName | quarterly_afr_xlsx_from_iceberg.py:552-560 | a spreadsheet column name is one or more capital letters |
| XlsxSheet.ColumnNameValue | quarterly_afr_xlsx_from_iceberg.py:552-560 | reading a column name back gives its index: names are bijective base 26 |
| XlsxSheet.ColumnNameInjective | quarterly_afr_xlsx_from_iceberg.py:552-560 | different columns have different names |
| XlsxSheet.Codes | quarterly_afr_xlsx_from_iceberg.py:556-560 | one code point per character |
| XlsxSheet.ColumnCodesAgree | quarterly_afr_xlsx_from_iceberg.py:553-560 | below index 702 the letters the loop builds are the column's name |
| XlsxSheet.ColumnCodesFrom702 | quarterly_afr_xlsx_from_iceberg.py:553-560 | from index 702 the first letter built is past 'Z' and differs from the column's name; 702 gives "[A" for "AAA" |
| XlsxSheet.ModelColumnNames | quarterly_afr_xlsx_from_iceberg.py:552 | one column per model |
| XlsxSheet.ModelColumnNamesAt | quarterly_afr_xlsx_from_iceberg.py:552 | model `k`'s column is `start + 7 k` |
| XlsxSheet.Ranges | quarterly_afr_xlsx_from_iceberg.py:568-569 | one range per model |
| XlsxSheet.RangesAt | quarterly_afr_xlsx_from_iceberg.py:546-569 | model `k`'s range runs from row 6 to row `5 + max_rows` of its column and holds no space |
| XlsxSheet.MultiRangeParts | quarterly_afr_xlsx_from_iceberg.py:545-573 | the corrected multi-range splits at its spaces into exactly the models' ranges, in order |
| XlsxSheet.RangesAsWritten | quarterly_afr_xlsx_from_iceberg.py:552-569 | the loop builds one range per model |
| XlsxSheet.CodesConcat | quarterly_afr_xlsx_from_iceberg.py:569 | the code points of a concatenation are those of its parts |
| XlsxSheet.CodesJoin | quarterly_afr_xlsx_from_iceberg.py:571 | the code points of a joined text are the joined code points of its parts |
| XlsxSheet.RangeCodesOf | quarterly_afr_xlsx_from_iceberg.py:569 | a range built from a column's name has that name's code points |
| XlsxSheet.MultiRangeAsWrittenAgrees | quarterly_afr_xlsx_from_iceberg.py:545-573 | while every column index stays below 702 the text as written is the corrected multi-range |
| XlsxSheet.JoinCodesInjective | quarterly_afr_xlsx_from_iceberg.py:571 | parts without the separator are told apart by their joined text |
| XlsxSheet.IndexOfSep | quarterly_afr_xlsx_from_iceberg.py:571 | the first separator's position is within the text |
| XlsxSheet.JoinCodesFirst | quarterly_afr_xlsx_from_iceberg.py:571 | the first part of a joined text ends at its first separator |
| XlsxSheet.MultiRangeAsWrittenWrong | quarterly_afr_xlsx_from_iceberg.py:545-573 | from column F with 101 models or more the text as written is not the corrected multi-range |
| XlsxSheet.NoSpaceParts | quarterly_afr_xlsx_from_iceberg.py:569 | no range of either text holds a space |
| XlsxSheet.FirstLetterDiffers | quarterly_afr_xlsx_from_iceberg.py:553-560 | the 101st model from column F (index 705) starts with "[" as written and with "A" in its name |
| XlsxSheet.RangeNoSpaceAsWritten | quarterly_afr_xlsx_from_iceberg.py:553-569 | the letters built are never a space |
| XlsxSheet.Sheet.constructor | quarterly_afr_xlsx_from_iceberg.py:786-787 | a new worksheet has no writes |
| XlsxSheet.Sheet.Write | quarterly_afr_xlsx_from_iceberg.py:748-749 | `excel_sheet.write` appends exactly that write |
| XlsxSheet.YearQuarterWrites | quarterly_afr_xlsx_from_iceberg.py:747-756 | two label cells per data row |
| XlsxSheet.AddYearQuarterRows | quarterly_afr_xlsx_from_iceberg.py:718-756 | the counter loop writes exactly the label cells of every data row, in order |
| XlsxSheet.YearQuarterCells | quarterly_afr_xlsx_from_iceberg.py:741-756 | data row `i` is labelled year `i / 4 + 1` and quarter `i % 4 + 1` in columns 0 and 1 of sheet row `i + 5`, shaded when the year is even |
| XlsxSheet.EntryCells | quarterly_afr_xlsx_from_iceberg.py:491-522 | seven cells per entry |
| XlsxSheet.EntryRows | quarterly_afr_xlsx_from_iceberg.py:487-530 | seven cells per entry, for every entry |
| XlsxSheet.BlankRow | quarterly_afr_xlsx_from_iceberg.py:538-539 | seven blank cells per row |
| XlsxSheet.BlankRows | quarterly_afr_xlsx_from_iceberg.py:537-539 | seven blank cells per padding row, none when there is nothing to pad |
| XlsxSheet.WriteModel | quarterly_afr_xlsx_from_iceberg.py:484-539 | one model's entries written row by row, then the padding, leaving its list empty as the `pop(0)` loop does |
| XlsxSheet.WriteEntries | quarterly_afr_xlsx_from_iceberg.py:487-530 | the `pop(0)` loop writes every entry's row from the first data row, each compared with the one before (the first with 0.0 and 0) |
| XlsxSheet.WritePadding | quarterly_afr_xlsx_from_iceberg.py:537-539 | bordered blank cells for every row from the current one to the last data row |
| XlsxSheet.WriteEntry | quarterly_afr_xlsx_from_iceberg.py:491-522 | the seven writes of one entry |
| XlsxSheet.EntryRowsAt | quarterly_afr_xlsx_from_iceberg.py:487-530 | entry `k` fills row `row + k`, compared with entry `k - 1` |
| XlsxSheet.BlankRowsAt | quarterly_afr_xlsx_from_iceberg.py:537-539 | padding cell `k` is blank, in row `from + k / 7`, column `col + k % 7` |
| XlsxSheet.ModelBlockGrid | quarterly_afr_xlsx_from_iceberg.py:484-539 | a model with at most `max_rows` entries fills its seven columns of data rows once each, row by row |
| XlsxSheet.ModelBlockCell | quarterly_afr_xlsx_from_iceberg.py:484-539 | cell `7 q + r` of a block is in data row `q` and column `col + r` |
| XlsxSheet.PairsWith | quarterly_afr_xlsx_from_iceberg.py:483 | one pair per model, in order |
| XlsxSheet.ModelPairs | quarterly_afr_xlsx_from_iceberg.py:482-483 | every pair visited names a model of the map |
| XlsxSheet.ModelPairsExact | quarterly_afr_xlsx_from_iceberg.py:482-483 | the pairs visited are exactly the models of the manufacturers listed |
| XlsxSheet.PairsWithSorted | quarterly_afr_xlsx_from_iceberg.py:483 | a manufacturer's sorted models are all of them |
| XlsxSheet.ModelPairsDistinct | quarterly_afr_xlsx_from_iceberg.py:482-483 | no model is visited twice |
| XlsxSheet.BlocksInGrid | quarterly_afr_xlsx_from_iceberg.py:482-542 | with every list at most `max_rows` long the writes stay in the data rows and in seven columns per model |
| XlsxSheet.DataWritesInGrid | quarterly_afr_xlsx_from_iceberg.py:445-542 | sized by the two counts, the data rows fill columns C on, seven per model, and rows 5 to `4 + max_rows`, no further |
| XlsxSheet.DistinctCount | quarterly_afr_xlsx_from_iceberg.py:759-764 | a list without repeats has as many elements as places |
| XlsxSheet.ModelCountIsPairs | quarterly_afr_xlsx_from_iceberg.py:759-764 | `_get_total_model_count` counts every (manufacturer, model) pair once |
| XlsxSheet.ListingCount | quarterly_afr_xlsx_from_iceberg.py:759-764 | a repeat-free listing of the pairs is as long as there are pairs |
| XlsxSheet.BlocksSnoc | quarterly_afr_xlsx_from_iceberg.py:482-542 | one more model writes its block after the others' |
| XlsxSheet.AddDataRows | quarterly_afr_xlsx_from_iceberg.py:445-542 | the nested loops write every model's block, seven columns further right each time, from column C |
| XlsxSheet.AddMfrsInOrder | quarterly_afr_xlsx_from_iceberg.py:482-542 | the outer loop writes the blocks of the manufacturers listed, in order |
| XlsxSheet.ModelPairsStep | quarterly_afr_xlsx_from_iceberg.py:482-483 | one more manufacturer visits its models in sorted order |
| XlsxSheet.MfrStep | quarterly_afr_xlsx_from_iceberg.py:483-542 | one more model of the inner loop writes its block after the others' |
| XlsxSheet.TotalModelCount | quarterly_afr_xlsx_from_iceberg.py:759-764 | the sum is the number of (manufacturer, model) pairs visited |
| XlsxSheet.CountInOrder | quarterly_afr_xlsx_from_iceberg.py:760-762 | the loop adds up the models of the manufacturers listed |
| XlsxSheet.MaxDataRowCount | quarterly_afr_xlsx_from_iceberg.py:767-773 | the longest list's length: no list is longer, and it is 0 or some list's length |
| XlsxSheet.LongestOf | quarterly_afr_xlsx_from_iceberg.py:770-771 | the running maximum over a manufacturer's models |
| XlsxSheet.AddMfrRows | quarterly_afr_xlsx_from_iceberg.py:483-542 | the inner loop writes the blocks of the manufacturer's models after the others', and moves the column on seven per model |
| MfrDistribution.MfrFor | drive_distribution_by_mfr.py:45-51 | a manufacturer is found exactly when some pattern matches the model, and it is that of a matching pattern with none matching before it |
| MfrDistribution.CountByMfr | drive_distribution_by_mfr.py:24-64 | the loops over the batches and rows build the counts the row-by-row step defines, which are the cache-free counts |
| MfrDistribution.RowDone | drive_distribution_by_mfr.py:30-62 | one more row of the batch applies the row step |
| MfrDistribution.FlattenSnoc | drive_distribution_by_mfr.py:27-30 | the rows after one more batch are those before it followed by the batch |
| MfrDistribution.RunResolved | drive_distribution_by_mfr.py:35-62 | after any rows the cache holds exactly the matching models seen, each with its first matching pattern's manufacturer, the ignored set exactly the others seen, and the counts are the cache-free ones |
| MfrDistribution.StepResolved | drive_distribution_by_mfr.py:35-62 | one row keeps the cache, the ignored set and the counts faithful |
| MfrDistribution.RunCounted | drive_distribution_by_mfr.py:35-62 | the cache and the ignored set change nothing in the counts |
| MfrDistribution.IgnoredNotCached | drive_distribution_by_mfr.py:36-55 | no model is both cached and ignored, and a model some pattern matches is never ignored |
| MfrDistribution.CountedCell | drive_distribution_by_mfr.py:57-62 | each cell counts the rows of its day whose model's first matching pattern gives its manufacturer, and exists exactly when there is one |
| MfrDistribution.CountedTotal | drive_distribution_by_mfr.py:57-62 | the counts add up to the number of rows whose model some pattern matches |
| ParquetCsv.Aggregate | afr_parquet_to_csv.py:22-40 | the counting loops, stopped by `break` after the first batch, build the tally of the first batch's rows |
| ParquetCsv.TallyCell | afr_parquet_to_csv.py:29-38 | each entry holds its model and day's row count and failure sum, and exists exactly when there is such a row |
| ParquetCsv.FailuresWithinDays | afr_parquet_to_csv.py:37-38 | with 0/1 failure flags a model and day's failure sum is between 0 and its row count |
| ParquetCsv.FailureCountBound | afr_parquet_to_csv.py:37-38 | with 0/1 failure flags no entry counts more failures than drive-days |
| ParquetCsv.LinesOf | afr_parquet_to_csv.py:47-55 | one line per day given, each with its day's counts |
| ParquetCsv.WriteLines | afr_parquet_to_csv.py:46-55 | the writing loops write the output: models sorted, each with its sorted days |
| ParquetCsv.WriteModel | afr_parquet_to_csv.py:47-55 | the inner loop writes one line per day of the model, in order |
| ParquetCsv.LineStep | afr_parquet_to_csv.py:47-55 | one more day adds its line |
| ParquetCsv.ModelStep | afr_parquet_to_csv.py:46-55 | one more model adds its block |
| ParquetCsv.OutputAscending | afr_parquet_to_csv.py:46-55 | the lines ascend strictly by model, then by day, so no model and day is written twice |
| ParquetCsv.LinesForAscending | afr_parquet_to_csv.py:46-55 | over ascending models the lines ascend |
| ParquetCsv.ModelsBefore | afr_parquet_to_csv.py:46 | lines of earlier models sort before the last model |
| ParquetCsv.LinesForModels | afr_parquet_to_csv.py:46-55 | every line is of one of the models given |
| ParquetCsv.AppendAscending | afr_parquet_to_csv.py:46-55 | two ascending runs, the first all before the second, make one |
| ParquetCsv.OutputMembers | afr_parquet_to_csv.py:46-55 | a line is written exactly when its model and day have an entry, with that entry's counts |
| ParquetCsv.LinesForMembers | afr_parquet_to_csv.py:46-55 | the lines of the models given are exactly their entries |
| ParquetCsv.MembersJoin | afr_parquet_to_csv.py:46-55 | the last model's block joins the others' lines |
| ParquetCsv.LinesOfMembers | afr_parquet_to_csv.py:47-55 | a model's block holds exactly the lines of its entries |
| ExcelCsv.ParseRowOf | convert_afr_csv_to_excel_csv.py:21-32 | reading a row Trino wrote for a record gives the record back |
| ExcelCsv.ParseAllOk | convert_afr_csv_to_excel_csv.py:20-32 | when every row reads, there is one record per row, each that row's |
| ExcelCsv.ParseAllErr | convert_afr_csv_to_excel_csv.py:20-32 | reading fails exactly with the error of the first row that does not read |
| ExcelCsv.FailurePrefix | convert_afr_csv_to_excel_csv.py:20-32 | a first failure before the last row is one of the rows without it |
| ExcelCsv.FailureAtLast | convert_afr_csv_to_excel_csv.py:20-32 | when every earlier row reads, the first failure can only be the last row's |
| ExcelCsv.FirstFailureUnique | convert_afr_csv_to_excel_csv.py:20-32 | there is one first failure |
| ExcelCsv.LastAfrFound | convert_afr_csv_to_excel_csv.py:32 | a last AFR for a day and model is that of a record with none of the same day and model after it |
| ExcelCsv.LastAfrOf | convert_afr_csv_to_excel_csv.py:32 | the last record of a day and model gives its AFR |
| ExcelCsv.LastExists | convert_afr_csv_to_excel_csv.py:32 | a day and model with a record has a last one |
| ExcelCsv.LastAfrIsLast | convert_afr_csv_to_excel_csv.py:32 | the reference value is the last record's AFR, and there is none exactly when no record has that day and model |
| ExcelCsv.PivotCell | convert_afr_csv_to_excel_csv.py:28-32 | each cell holds the AFR of the last row of its day and model (a later row overwrites), and exists exactly when there is such a row |
| ExcelCsv.ModelsRead | convert_afr_csv_to_excel_csv.py:24-25 | a model is a column exactly when some row names it |
| ExcelCsv.PivotColumns | convert_afr_csv_to_excel_csv.py:24-32 | every day present has a model, and every model with an AFR is a column |
| ExcelCsv.ConvertAfrCsv | convert_afr_csv_to_excel_csv.py:13-36 | the reading loop gives the sorted columns and the pivot, or the first row's error |
| ExcelCsv.ReadStep | convert_afr_csv_to_excel_csv.py:20-32 | one more row read appends its record |
| ExcelCsv.ReadStops | convert_afr_csv_to_excel_csv.py:20-32 | a row that raises ends the reading with its error |
| ExcelCsv.ErrPersists | convert_afr_csv_to_excel_csv.py:20-32 | once a prefix fails, every longer one fails with the same error |
| ExcelCsv.CreateExcelCsv | convert_afr_csv_to_excel_csv.py:39-68 | the header is `day_index` then the columns, and the loop writes one row per day in ascending order |
| ExcelCsv.WriteStep | convert_afr_csv_to_excel_csv.py:57-68 | one more day's row never raises and is appended |
| ExcelCsv.BuildRow | convert_afr_csv_to_excel_csv.py:59-66 | the inner loop builds the day's dictionary |
| ExcelCsv.RowDictAt | convert_afr_csv_to_excel_csv.py:59-66 | a row's keys are `day_index` and the columns with an AFR that day, with their values |
| ExcelCsv.ExpectedRow | convert_afr_csv_to_excel_csv.py:68 | one cell per field name, each that field's value |
| ExcelCsv.RowWritten | convert_afr_csv_to_excel_csv.py:68 | every key is a field name, so `writerow` never raises, and it writes each field's cell |
| ExcelCsv.ExpectedRows | convert_afr_csv_to_excel_csv.py:57-68 | one expected row per day given |
| ExcelCsv.RowsForExpected | convert_afr_csv_to_excel_csv.py:57-68 | writing never raises and writes the expected row for each day |
| ExcelCsv.TableExpected | convert_afr_csv_to_excel_csv.py:57-68 | the table is the expected rows of the days in ascending order |
| ExcelCsv.ExpectedCells | convert_afr_csv_to_excel_csv.py:59-68 | with no model named `day_index`, a row's first cell is its day and cell `j + 1` the AFR of column `j`, or empty |
| ExcelCsv.TableLayout | convert_afr_csv_to_excel_csv.py:39-68 | one row per day index, ascending, the first cell its day and cell `j + 1` the AFR of column `j` that day or empty |
| EtlPipeline.Banners | etl_pipeline.py:24-33 | `k` banners, the `j`-th for stage `j + 1` with its description |
| EtlPipeline.BannersAfterCreate | etl_pipeline.py:10-33 | after `create_pipeline`, whatever came before, the first `k <= n` calls return the banners of stages 1 to `k` in order and leave the index at `k + 1` |
| EtlPipeline.NextAt | etl_pipeline.py:24-33 | with the index at stage `k` a call returns that stage's banner and moves on by one |
| EtlPipeline.PastLastStage | etl_pipeline.py:10-33 | call `n + 1` and every call after it raises IndexError and changes nothing |
| EtlPipeline.PastEnd | etl_pipeline.py:24-33 | once the index is past the last stage, every later call raises IndexError and changes nothing |
| EtlPipeline.NextPastEnd | etl_pipeline.py:28-30 | with the index past the last stage a call raises IndexError |
| EtlPipeline.Stuck | etl_pipeline.py:24-33 | a call that raises without changing the state is repeated by every later call |
| EtlPipeline.Raised | etl_pipeline.py:24-33 | `k` copies of the error |
| EtlPipeline.BeforeCreate | etl_pipeline.py:4-7 | before `create_pipeline` every call raises TypeError and changes nothing |
| EtlPipeline.RepeatCreate | etl_pipeline.py:10-21 | a repeat `create_pipeline` warns and leaves the same state as a first call; a first call does not warn |
| EtlPipeline.Pipeline.constructor | etl_pipeline.py:4-7 | the module state starts with both entries `None` |
| EtlPipeline.Pipeline.CreatePipeline | etl_pipeline.py:10-21 | warns exactly when stages were set, then sets the descriptions and stage 1 |
| EtlPipeline.Pipeline.NextStageBanner | etl_pipeline.py:24-33 | returns or raises as `Next` says and leaves the state it gives |
| IcebergAvro.ToAvroFields | iceberg_csv_to_avro.py:16-30 | a row converts exactly when it has the five columns and both numbers parse; the strings are copied, `capacity_bytes` is the parsed integer and `failure` is true exactly for 1 |
| IcebergAvro.ToAvroOfCsv | iceberg_csv_to_avro.py:16-30 | converting an exported row gives its record back |
| IcebergAvro.FlagText | iceberg_csv_to_avro.py:25 | `int("1")` is 1 and `int("0")` is 0 |
| IcebergAvro.Yielded | iceberg_csv_to_avro.py:33-37 | one record per row in order until a row raises; that row's error ends the script |
| IcebergTable.Candidates | iceberg_table.py:22-24 | a name is kept exactly when it is listed and ends in `.metadata.json` |
| IcebergTable.CurrentMetadataFileUri | iceberg_table.py:4-29 | the filtering loop then the selection compute the URI the listing defines |
| IcebergTable.LatestIsGreatest | iceberg_table.py:22-29 | IndexError exactly when no listed name ends in `.metadata.json`; otherwise the URI names a listed metadata file that sorts after every other |
| IcebergTable.ListingOrderIrrelevant | iceberg_table.py:22-29 | listings of the same names give the same URI |

## Left out

- File and network I/O are left out. This covers JSON and CSV reading and writing, the boto3 upload, psycopg2, argparse and timing. The rows a script reads are the parameters of its members.
- Printed output is modelled as `Line` values or returned strings, not as text written to stdout. The WARN line of `EtlPipeline.Pipeline.CreatePipeline` is its `warned` result.
- Polars, pyarrow and pandas queries are left out. This covers `scan_iceberg`, `group_by`, `join`, `unique`, `mode`, `collect_batches` and `median`. Their results are input sequences of rows or batches. `_do_quarterly_afr_calculations`, `_add_drives_deployed_removed_each_qtr` and the `_get_smart_drive_model_names` functions are not part of this model, because their semantics live in those libraries.
- A deployed-drive count that afr_viz_csv.py reads with `DataFrame.item()` is a map lookup in the model. A missing entry is the `ValueError` that `.item()` raises (`VizCsv.ItemError`).
- Multiprocessing is left out: the queues, the process spawn and join, and the blocking puts and gets. `StatsAggregator.StatsWorker` reads a sequential message list. Its precondition says that the list holds at least one `None` per worker, which is what each worker sends after its data.
- afr_parquet_to_human_readable_csv.py is not part of this model. It only moves batches through a queue and drops them.
- The scripts that are all Polars are not part of this model: quarterly_raw_storage_capacity.py, quarterly_raw_storage_capacity_by_mfr.py, quarterly_raw_storage_by_datacenter.py, quarterly_drive_model_distributions.py, quarterly_drive_model_distrubution.py, create_pgsql_db_from_iceberg.py and parquet_to_pandas.py.
- `datetime.now()` is left out. `StatsProducer.Partitions` and `StatsProducer.YearPartitions` take the current year and month as parameters.
- The `ls` call of iceberg_table.py is the `ls` parameter of `IcebergTable.CurrentMetadataUri`. The order of the listing does not matter (`IcebergTable.ListingOrderIrrelevant`).
- iceberg_csv_to_avro.py: the fastavro writer and the Avro schema file are left out. Only `_update_row_to_avro_schema` (`IcebergAvro.ToAvro`) and the row iterator (`IcebergAvro.Yielded`) are modelled.
- Floating point is left out. AFR is a `real` (failures × 36500 / drive-days, with drive-days > 0), not a rounded float. `round(…, 2)`, `:.03f`, percentages and capacity maths are not modelled. The AFR tables keep the exact cumulative drive-days and failures.
- `ExcelCsv.ParseRow`: `float(text)` is the `toFloat` parameter, so what text `float()` accepts is not modelled.
- The general regex engine is left out. Regexes read from JSON are an opaque predicate (`matches` or `searches`) that the caller passes in. The `re.error` a malformed pattern raises is hidden behind that predicate. The fixed patterns (the normalizer's prefixes and the ISO date shape) are written out by hand.
- `Numerals.IsDigit` accepts ASCII digits only. Python's `\d` and `int()` also accept the other Unicode decimal digits; those are not modelled.
- Dates in the input rows are `Calendar.Date` values or day numbers. The `ValueError` that `datetime.date.fromisoformat` raises on a malformed text is not modelled (compute_afr.py:117-118, generate_human_readable_afr_data.py:33, generate_drive_distribution_csv.py:90-91).
- `ComputeAfr.ParseCsvData` keys days by day number, not by the CSV's date text. The model therefore does not capture the `KeyError` at compute_afr.py:130, which a non-canonical date text such as "20230105" would raise when the prep looks it up by its `isoformat()`.
- `DriveDistribution.AggregateData` compares dates rather than the raw dictionary keys that `_aggregate_data` sorts and compares (generate_drive_distribution_csv.py:87-117). This holds only when every key is a canonical "YYYY-MM-DD" text. For those texts, string order and date order agree.
- `ComputeAfr.PrepCsvDataForAfrCalc` returns new prepped records. The source updates the parsed per-day dictionaries in place (compute_afr.py:130-143), which changes the caller's `parsed_csv_data`. That aliasing is not modelled.
- `HumanReadable.GenerateHumanReadableData` models the deletion of each model's per-day data after its walk. The local copy `today_data` that the source makes is never used, so it is not modelled.
- `XlsxSheet.MultiRangeAsWritten` keeps the as-written column codes as unbounded integers. It does not model the `ValueError` that `chr()` raises for a code above U+10FFFF.
- `DriveDistribution.AggregateIntended` is the corrected reference definition, not a model of the code. It returns a `ValueError` when any date is invalid, whereas the source parses only the first and last keys and the quarter ends.
- xlsxwriter formats, merged cells and colour scales are left out. `XlsxSheet.Sheet` records only the cells written and their values.

## Findings

| source | as written | input that shows it | evidently intended | confidence | as-written member | corrected member |
|---|---|---|---|---|---|---|
| compute_afr.py:77-86 | every family whose regex matches the model gets a dictionary, but only the last match receives the row's counts; an earlier matching family stays empty and `_prep_csv_data_for_afr_calc` raises `IndexError` at `sorted_dates[0]` | a model matched by the regexes of two different families | a family with no dates is never created, or is skipped by the prep | not executed | ComputeAfr.EarlierMatchLeftEmpty | ComputeAfr.PrepSkippingEmpty |
| afr_viz_csv_from_iceberg.py:215-221 | the quarter window `is_between(m, m + 3)` includes the first month of the next quarter, so those days count in two quarters | one serial seen on 2023-01-15 and failing on 2023-04-15, minimum 1 drive: the running sums are 2 drive-days and 1 failure after Q1, and 3 drive-days and 2 failures after Q2 | each day counts in its own quarter only: 1 drive-day and 0 failures after Q1, and 2 drive-days and 1 failure after Q2 | not executed | IcebergWalk.WindowDoubleCount, IcebergWalk.WindowOverlap | IcebergWalk.WindowCountedOnce, IcebergWalk.QuarterWindowExact |
| quarterly_afr_xlsx_from_iceberg.py:552-560 | a column letter is built from `chr(ord('A') + index // 26 - 1)` and the remainder, which is wrong from column index 702 onwards | the 101st model range starting in column F reaches index 705 and gives "[D" instead of "AAD"; index 702 gives "[A" instead of "AAA" | spreadsheet column names ("AAA", "AAB", …) | not executed | XlsxSheet.MultiRangeAsWritten, XlsxSheet.MultiRangeAsWrittenWrong, XlsxSheet.ColumnCodesFrom702 | XlsxSheet.MultiRange, XlsxSheet.MultiRangeParts, XlsxSheet.MultiRangeAsWrittenAgrees |
| generate_drive_distribution_csv.py:115-117 | the inner loop stops when it reaches the quarter-end date, so a quarter whose first data day is its own end gets no days at all; a quarter end missing from the data raises `IndexError` from `pop(0)` | days 2023-03-31 (9 drives), 2023-04-01 (7) and 2023-06-30 (6): Q1 is empty and Q2 shows 9; days 2023-01-01 (1) and 2023-02-01 (2) with no 2023-03-31 raise `IndexError` | each day is aggregated into its own quarter: Q1 shows 9 and Q2 shows 7 in the first input, and Q1 shows 2 in the second | not executed | DriveDistribution.QuarterEndFirstDay, DriveDistribution.MissingQuarterEnd | DriveDistribution.AggregateIntended, DriveDistribution.IntendedOwnQuarter, DriveDistribution.IntendedQuarterExact, DriveDistribution.QuarterEndFirstDayIntended, DriveDistribution.MissingQuarterEndIntended |
