/** What the state of `_afr_stats_worker` holds once it has read its messages: each
    (model, quarter) cell counts exactly the records of that model in that quarter, each
    model's serial set is the serials of its records, and the drive-days add up to the
    number of records received. */
module AggregateFacts {
  import opened Wrappers
  import opened Tallies
  import opened StatsProducer
  import opened StatsAggregator

  /** The names the entries are counted under. */
  function NamesOf(es: seq<Entry>): set<string> {
    set i | 0 <= i < |es| :: es[i].name
  }

  /** The positions of the entries of model `name` in quarter `quarter`. */
  function InCell(es: seq<Entry>, name: string, quarter: string): set<nat> {
    set i: nat | i < |es| && es[i].name == name && es[i].rec.yearQuarter == quarter
  }

  /** Those of them whose record carries a failure. */
  function FailedInCell(es: seq<Entry>, name: string, quarter: string): set<nat> {
    set i: nat | i < |es| && es[i].name == name && es[i].rec.yearQuarter == quarter && es[i].rec.failed
  }

  /** The serial numbers of the entries of model `name`. */
  function SerialsIn(es: seq<Entry>, name: string): set<string> {
    set i | 0 <= i < |es| && es[i].name == name :: es[i].rec.serial
  }

  /** A model has a counter, and a serial set, exactly when some record was counted under
      its name. */
  lemma {:induction false} BuildKeys(es: seq<Entry>)
    ensures Build(es).data.Keys == NamesOf(es)
    ensures Build(es).serials.Keys == NamesOf(es)
    decreases |es|
  {
    if |es| > 0 {
      var init := es[..|es| - 1];
      var last := es[|es| - 1];
      BuildKeys(init);
      NamesSnoc(es);
      RecordKeys(Build(init), last.name, last.rec);
    }
  }

  lemma {:induction false} RecordKeys(s: AggState, name: string, r: StatsRecord)
    ensures Record(s, name, r).data.Keys == s.data.Keys + {name}
    ensures Record(s, name, r).serials.Keys == s.serials.Keys + {name}
  {
  }

  lemma {:induction false} NamesSnoc(es: seq<Entry>)
    requires |es| > 0
    ensures NamesOf(es) == NamesOf(es[..|es| - 1]) + {es[|es| - 1].name}
  {
    var init := es[..|es| - 1];
    forall n | n in NamesOf(es) ensures n in NamesOf(init) + {es[|es| - 1].name} {
      var i :| 0 <= i < |es| && es[i].name == n;
      if i < |es| - 1 {
        assert init[i] == es[i];
      }
    }
    forall n | n in NamesOf(init) ensures n in NamesOf(es) {
      var i :| 0 <= i < |init| && init[i].name == n;
      assert es[i] == init[i];
    }
  }

  /** Each cell holds the number of records of its model and quarter and the number of them
      that failed; a cell exists exactly when there is at least one such record. */
  lemma {:induction false} BuildCell(es: seq<Entry>, name: string, quarter: string)
    ensures CellOr(Build(es).data, name, quarter)
      == Counts(|InCell(es, name, quarter)|, |FailedInCell(es, name, quarter)|)
    ensures (name in Build(es).data && quarter in Build(es).data[name]) <==> |InCell(es, name, quarter)| > 0
    decreases |es|
  {
    if |es| == 0 {
      assert InCell(es, name, quarter) == {};
      assert FailedInCell(es, name, quarter) == {};
    } else {
      var init := es[..|es| - 1];
      var last := es[|es| - 1];
      BuildCell(init, name, quarter);
      InCellSnoc(es, name, quarter);
      RecordCell(Build(init), last.name, last.rec, name, quarter);
    }
  }

  /** Counting one record changes only its own cell, by one drive-day and one failure when
      it has one, and creates that cell if it was missing. */
  lemma {:induction false} RecordCell(s: AggState, n: string, r: StatsRecord, name: string, quarter: string)
    ensures CellOr(Record(s, n, r).data, name, quarter)
      == if n == name && r.yearQuarter == quarter
         then Counts(CellOr(s.data, name, quarter).drives + 1, CellOr(s.data, name, quarter).failures + FailureCount(r.failed))
         else CellOr(s.data, name, quarter)
    ensures (name in Record(s, n, r).data && quarter in Record(s, n, r).data[name])
      <==> (n == name && r.yearQuarter == quarter) || (name in s.data && quarter in s.data[name])
  {
    AddAtElsewhere(s.data, n, r.yearQuarter, Tally(r));
  }

  /** One more entry adds one to the size of its own cell, and one failure when it failed. */
  lemma {:induction false} InCellSnoc(es: seq<Entry>, name: string, quarter: string)
    requires |es| > 0
    ensures var k := |es| - 1; var hit := es[k].name == name && es[k].rec.yearQuarter == quarter;
      |InCell(es, name, quarter)| == |InCell(es[..k], name, quarter)| + (if hit then 1 else 0)
      && |FailedInCell(es, name, quarter)|
         == |FailedInCell(es[..k], name, quarter)| + (if hit && es[k].rec.failed then 1 else 0)
  {
    var k := |es| - 1;
    InCellInit(es, name, quarter);
    CardRemove(InCell(es, name, quarter), InCell(es[..k], name, quarter), k);
    CardRemove(FailedInCell(es, name, quarter), FailedInCell(es[..k], name, quarter), k);
  }

  lemma {:induction false} InCellInit(es: seq<Entry>, name: string, quarter: string)
    requires |es| > 0
    ensures InCell(es, name, quarter) - {|es| - 1} == InCell(es[..|es| - 1], name, quarter)
    ensures FailedInCell(es, name, quarter) - {|es| - 1} == FailedInCell(es[..|es| - 1], name, quarter)
  {
    var init := es[..|es| - 1];
    forall i | 0 <= i < |init| ensures init[i] == es[i] {
    }
  }

  lemma {:induction false} CardRemove(a: set<nat>, b: set<nat>, k: nat)
    requires b == a - {k}
    ensures |a| == |b| + (if k in a then 1 else 0)
  {
    if k in a {
      assert a == b + {k};
    } else {
      assert a == b;
    }
  }

  lemma {:induction false} SubsetCard(a: set<nat>, b: set<nat>)
    requires a <= b
    ensures |a| <= |b|
  {
    assert b == a + (b - a);
  }

  /** Cells start at zero and are incremented at once: every cell has at least one
      drive-day, and no more failures than drive-days. */
  lemma {:induction false} BuildCellBounds(es: seq<Entry>, name: string, quarter: string)
    requires name in Build(es).data && quarter in Build(es).data[name]
    ensures 1 <= Build(es).data[name][quarter].drives
    ensures 0 <= Build(es).data[name][quarter].failures <= Build(es).data[name][quarter].drives
  {
    BuildCell(es, name, quarter);
    SubsetCard(FailedInCell(es, name, quarter), InCell(es, name, quarter));
  }

  /** A model's serial set holds the serial numbers of exactly its records. */
  lemma {:induction false} BuildSerials(es: seq<Entry>, name: string)
    ensures SerialsOf(Build(es), name) == SerialsIn(es, name)
    decreases |es|
  {
    if |es| > 0 {
      var init := es[..|es| - 1];
      var last := es[|es| - 1];
      BuildSerials(init, name);
      SerialsInSnoc(es, name);
      RecordSerials(Build(init), last.name, last.rec, name);
    }
  }

  lemma {:induction false} RecordSerials(s: AggState, n: string, r: StatsRecord, name: string)
    ensures SerialsOf(Record(s, n, r), name) == SerialsOf(s, name) + (if n == name then {r.serial} else {})
  {
  }

  lemma {:induction false} SerialsInSnoc(es: seq<Entry>, name: string)
    requires |es| > 0
    ensures var k := |es| - 1;
      SerialsIn(es, name) == SerialsIn(es[..k], name) + (if es[k].name == name then {es[k].rec.serial} else {})
  {
    var k := |es| - 1;
    var init := es[..k];
    forall z | z in SerialsIn(es, name)
      ensures z in SerialsIn(init, name) + (if es[k].name == name then {es[k].rec.serial} else {})
    {
      var i :| 0 <= i < |es| && es[i].name == name && es[i].rec.serial == z;
      if i < k {
        assert init[i] == es[i];
      }
    }
    forall z | z in SerialsIn(init, name) ensures z in SerialsIn(es, name) {
      var i :| 0 <= i < |init| && init[i].name == name && init[i].rec.serial == z;
      assert es[i] == init[i];
    }
  }

  /** Before the cull, the drive-days over every cell add up to the number of records. */
  lemma {:induction false} BuildTotal(es: seq<Entry>)
    ensures TotalDrives(Build(es).data) == |es|
    decreases |es|
  {
    if |es| == 0 {
      TotalDrivesEmpty(Empty.data);
    } else {
      var init := es[..|es| - 1];
      var last := es[|es| - 1];
      BuildTotal(init);
      TotalDrivesAddAt(Build(init).data, last.name, last.rec.yearQuarter, Tally(last.rec));
    }
  }

  /** Naming succeeds exactly when every record's model normalizes, and then pairs each
      record, in order, with its normalized name. */
  lemma {:induction false} NamedOk(norm: Normalize, recs: seq<StatsRecord>)
    ensures Named(norm, recs).Ok? <==> forall i :: 0 <= i < |recs| ==> norm(recs[i].model).Ok?
    ensures Named(norm, recs).Ok? ==>
      |Named(norm, recs).value| == |recs|
      && forall i :: 0 <= i < |recs| ==> Named(norm, recs).value[i] == Entry(norm(recs[i].model).value, recs[i])
    decreases |recs|
  {
    if |recs| > 0 {
      var init := recs[..|recs| - 1];
      NamedOk(norm, init);
      assert forall i :: 0 <= i < |init| ==> init[i] == recs[i];
    }
  }

  /** A failed naming reports the error of the first record whose model does not
      normalize. */
  lemma {:induction false} NamedErr(norm: Normalize, recs: seq<StatsRecord>) returns (j: nat)
    requires Named(norm, recs).Err?
    ensures j < |recs| && norm(recs[j].model).Err? && Named(norm, recs).error == norm(recs[j].model).error
    ensures forall i :: 0 <= i < j ==> norm(recs[i].model).Ok?
    decreases |recs|
  {
    var init := recs[..|recs| - 1];
    if Named(norm, init).Err? {
      j := NamedErr(norm, init);
      assert recs[j] == init[j];
      assert forall i :: 0 <= i < j ==> recs[i] == init[i];
    } else {
      j := |recs| - 1;
      NamedOk(norm, init);
      assert forall i :: 0 <= i < j ==> recs[i] == init[i];
    }
  }

  // ---------------------------------------------------------------------------------------
  // the worker, end to end

  /** The positions in a stream of the records whose model normalizes to `name` and that
      fall in `quarter`. */
  function StreamCell(norm: Normalize, s: seq<StatsRecord>, name: string, quarter: string): set<nat> {
    set i: nat | i < |s| && norm(s[i].model) == Ok(name) && s[i].yearQuarter == quarter
  }

  /** Those of them that carry a failure. */
  function StreamFailed(norm: Normalize, s: seq<StatsRecord>, name: string, quarter: string): set<nat> {
    set i: nat | i < |s| && norm(s[i].model) == Ok(name) && s[i].yearQuarter == quarter && s[i].failed
  }

  /** The serial numbers of the records of a stream whose model normalizes to `name`. */
  function StreamSerials(norm: Normalize, s: seq<StatsRecord>, name: string): set<string> {
    set i | 0 <= i < |s| && norm(s[i].model) == Ok(name) :: s[i].serial
  }

  /** The worker's counters, stated over the records it reads: each cell counts the records
      whose model normalizes to its model and that fall in its quarter, each serial set is
      the serials of the records of its model, and the drive-days add up to
      `data_records_received`. */
  lemma {:induction false} WorkerCounts(norm: Normalize, messages: seq<Message>, workers: int, name: string, quarter: string)
    requires WorkerResult(norm, messages, workers).Ok?
    ensures CellOr(WorkerResult(norm, messages, workers).value.data, name, quarter)
      == Counts(|StreamCell(norm, StreamFrom(messages, 0, workers), name, quarter)|,
                |StreamFailed(norm, StreamFrom(messages, 0, workers), name, quarter)|)
    ensures SerialsOf(WorkerResult(norm, messages, workers).value, name)
      == StreamSerials(norm, StreamFrom(messages, 0, workers), name)
    ensures TotalDrives(WorkerResult(norm, messages, workers).value.data) == RecordsFrom(messages, 0, workers)
  {
    var s := StreamFrom(messages, 0, workers);
    WorkerStream(norm, messages, workers);
    NamedOk(norm, s);
    var es := Named(norm, s).value;
    assert WorkerResult(norm, messages, workers).value == Build(es);
    BuildCell(es, name, quarter);
    assert InCell(es, name, quarter) == StreamCell(norm, s, name, quarter);
    assert FailedInCell(es, name, quarter) == StreamFailed(norm, s, name, quarter);
    BuildSerials(es, name);
    assert SerialsIn(es, name) == StreamSerials(norm, s, name) by {
      forall z | z in StreamSerials(norm, s, name) ensures z in SerialsIn(es, name) {
        var i :| 0 <= i < |s| && norm(s[i].model) == Ok(name) && s[i].serial == z;
        assert es[i].name == name && es[i].rec.serial == z;
      }
    }
    BuildTotal(es);
    RecordsFromStream(messages, 0, workers);
  }

  /** Every model the worker counts is the normalization of the model of a record it read. */
  lemma {:induction false} WorkerNameSource(norm: Normalize, messages: seq<Message>, workers: int, name: string) returns (i: nat)
    requires WorkerResult(norm, messages, workers).Ok?
    requires name in WorkerResult(norm, messages, workers).value.data
    ensures i < |StreamFrom(messages, 0, workers)|
    ensures norm(StreamFrom(messages, 0, workers)[i].model) == Ok(name)
  {
    var s := StreamFrom(messages, 0, workers);
    WorkerStream(norm, messages, workers);
    NamedOk(norm, s);
    var es := Named(norm, s).value;
    BuildKeys(es);
    i :| 0 <= i < |es| && es[i].name == name;
  }
}
