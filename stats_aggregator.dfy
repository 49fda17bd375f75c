/** The stats side of afr_parquet_to_quarterly_csv.py: `_afr_stats_worker` as a sequential
    fold over the messages it takes from its queue, with its name cache, followed by
    `_cull_drive_models` and `_add_drive_deploy_counts_to_model_names`. */
module StatsAggregator {
  import opened Wrappers
  import opened Text
  import opened Numerals
  import opened Tallies
  import opened Normalizer
  import opened StatsProducer

  /** A queue message: one reader batch, or the `None` a reader sends when it is done. */
  datatype Message = Data(records: seq<StatsRecord>) | Pill

  /** The per-model state the worker builds: drive-days and failures per (model, quarter),
      and the distinct serial numbers per model. */
  datatype AggState = AggState(data: map<string, map<string, Counts>>, serials: map<string, set<string>>)

  const Empty: AggState := AggState(map[], map[])

  /** The order in which `pop()` takes the elements of a list: last first. */
  function Reverse<T>(s: seq<T>): (r: seq<T>)
    ensures |r| == |s|
  {
    if |s| == 0 then [] else Reverse(s[1..]) + [s[0]]
  }

  /** Popping the tail of a list first, then its head. */
  lemma {:induction false} ReverseSplit<T>(s: seq<T>, j: nat)
    requires j <= |s|
    ensures Reverse(s) == Reverse(s[j..]) + Reverse(s[..j])
    decreases j
  {
    if j > 0 {
      ReverseSplit(s[1..], j - 1);
      assert s[1..][j - 1..] == s[j..];
      assert s[..j][1..] == s[1..][..j - 1];
      ConcatAssoc(Reverse(s[j..]), Reverse(s[1..][..j - 1]), [s[0]]);
    }
  }

  lemma {:induction false} ConcatAssoc<T>(a: seq<T>, b: seq<T>, c: seq<T>)
    ensures (a + b) + c == a + (b + c)
  {
  }

  /** The pills among the messages from index `i` on. */
  function PillsFrom(msgs: seq<Message>, i: nat): nat
    requires i <= |msgs|
    decreases |msgs| - i
  {
    if i == |msgs| then 0 else (if msgs[i].Pill? then 1 else 0) + PillsFrom(msgs, i + 1)
  }

  /** The records the worker processes from message `i` on, in processing order: message
      after message, each list popped from its end, until the pill that leaves `pillsLeft`
      at zero or below. */
  function StreamFrom(msgs: seq<Message>, i: nat, pillsLeft: int): seq<StatsRecord>
    requires i <= |msgs|
    decreases |msgs| - i
  {
    if i == |msgs| then []
    else match msgs[i]
      case Pill => if pillsLeft <= 1 then [] else StreamFrom(msgs, i + 1, pillsLeft - 1)
      case Data(recs) => Reverse(recs) + StreamFrom(msgs, i + 1, pillsLeft)
  }

  /** What one record adds to its (model, quarter) cell: a drive-day, and a failure when the
      record carries one. */
  function Tally(r: StatsRecord): Counts {
    Counts(1, FailureCount(r.failed))
  }

  /** 1 for a record that carries a failure, else 0. */
  function FailureCount(failed: bool): nat {
    if failed then 1 else 0
  }

  /** One record counted under the normalized model name `name`. */
  function Record(s: AggState, name: string, r: StatsRecord): AggState {
    AggState(AddAt(s.data, name, r.yearQuarter, Tally(r)),
             s.serials[name := SerialsOf(s, name) + {r.serial}])
  }

  /** The serial numbers seen for a model so far; none for a model not seen yet. */
  function SerialsOf(s: AggState, name: string): set<string> {
    if name in s.serials then s.serials[name] else {}
  }

  /** A record together with the normalized name it is counted under. */
  datatype Entry = Entry(name: string, rec: StatsRecord)

  /** The state the worker has built after counting the entries in order. */
  function Build(es: seq<Entry>): AggState
    decreases |es|
  {
    if |es| == 0 then Empty
    else
      var last := es[|es| - 1];
      Record(Build(es[..|es| - 1]), last.name, last.rec)
  }

  /** Counting one more entry. */
  lemma {:induction false} BuildSnoc(es: seq<Entry>, e: Entry)
    ensures Build(es + [e]) == Record(Build(es), e.name, e.rec)
  {
    assert (es + [e])[..|es|] == es;
  }

  /** `state` is what counting `log` from the empty state gives, `state == Build(log)`. It
      is stated through `Build` applied to any log equal to `log` so that a proof that only
      passes the fact along does not unfold `Build`. */
  ghost predicate Summarizes(state: AggState, log: seq<Entry>) {
    forall es {:trigger Build(es)} :: es == log ==> state == Build(es)
  }

  /** Counting one more entry extends the summarized log by that entry. */
  lemma {:induction false} SummarizesSnoc(state: AggState, log: seq<Entry>, e: Entry)
    requires Summarizes(state, log)
    ensures Summarizes(Record(state, e.name, e.rec), log + [e])
  {
    BuildSnoc(log, e);
  }

  /** A model-name normalizer: the worker uses `NormalizeSeparate`. The fold and the cache
      are stated for any normalizer, so that their proofs do not depend on its details. */
  type Normalize = string -> Result<string, PyError>

  /** The records of a stream paired with their normalized names, in order, or the error of
      the first record whose model does not normalize. */
  function Named(norm: Normalize, recs: seq<StatsRecord>): Result<seq<Entry>, PyError>
    decreases |recs|
  {
    if |recs| == 0 then Ok([])
    else
      var last := recs[|recs| - 1];
      match Named(norm, recs[..|recs| - 1])
      case Err(e) => Err(e)
      case Ok(es) =>
        match norm(last.model)
        case Err(e) => Err(e)
        case Ok(name) => Ok(es + [Entry(name, last)])
  }

  /** The worker's state after a whole stream of records, or the error that stops it. */
  function Aggregate(norm: Normalize, recs: seq<StatsRecord>): Result<AggState, PyError> {
    match Named(norm, recs)
    case Err(e) => Err(e)
    case Ok(es) => Ok(Build(es))
  }

  // ---------------------------------------------------------------------------------------
  // the name cache

  /** The cache is faithful: a stored mapping is the normalization of its raw name and was
      stored only when normalization changed the name; a seen name without a mapping
      normalizes to itself. */
  ghost predicate CacheFaithful(norm: Normalize, mappings: map<string, string>, seen: set<string>) {
    (forall raw :: raw in mappings ==> raw in seen && norm(raw) == Ok(mappings[raw]))
    && (forall raw :: raw in seen && raw !in mappings ==> norm(raw) == Ok(raw))
  }

  /** The three-way lookup of the worker's inner loop: a stored mapping, else normalization
      on first sight (storing the result only when it differs), else the raw name itself. The
      name it gives is always that of `_normalize_drive_model_name`. */
  method Lookup(norm: Normalize, mappings: map<string, string>, seen: set<string>, raw: string)
    returns (name: Result<string, PyError>, mappings': map<string, string>, seen': set<string>)
    requires CacheFaithful(norm, mappings, seen)
    ensures name == norm(raw)
    ensures name.Ok? ==> CacheFaithful(norm, mappings', seen') && seen' == seen + {raw}
  {
    mappings', seen' := mappings, seen;
    if raw in mappings {
      name := Ok(mappings[raw]);
    } else if raw !in seen {
      name := norm(raw);
      if name.Err? {
        return;
      }
      if name.value != raw {
        mappings' := mappings[raw := name.value];
      }
      seen' := seen + {raw};
    } else {
      name := Ok(raw);
    }
  }

  /** The counter updates for one record: the cell created at zero when missing, one more
      drive-day, one more failure when the record has one, and the serial number added to
      the model's set. */
  method Count(s: AggState, name: string, r: StatsRecord) returns (s': AggState)
    ensures s' == Record(s, name, r)
  {
    var inner := if name in s.data then s.data[name] else map[];
    var cell := if r.yearQuarter in inner then inner[r.yearQuarter] else Zero;
    cell := cell.(drives := cell.drives + 1);
    if r.failed {
      cell := cell.(failures := cell.failures + 1);
    }
    var known := if name in s.serials then s.serials[name] else {};
    ghost var before := known;
    if r.serial !in known {
      known := known + {r.serial};
    }
    assert known == before + {r.serial};
    s' := AggState(s.data[name := inner[r.yearQuarter := cell]], s.serials[name := known]);
  }

  /** The number of records the worker takes from message `i` on. */
  function RecordsFrom(msgs: seq<Message>, i: nat, pillsLeft: int): nat
    requires i <= |msgs|
    decreases |msgs| - i
  {
    if i == |msgs| then 0
    else match msgs[i]
      case Pill => if pillsLeft <= 1 then 0 else RecordsFrom(msgs, i + 1, pillsLeft - 1)
      case Data(recs) => |recs| + RecordsFrom(msgs, i + 1, pillsLeft)
  }

  /** The count is the length of the stream the worker reads. */
  lemma {:induction false} RecordsFromStream(msgs: seq<Message>, i: nat, pillsLeft: int)
    requires i <= |msgs|
    ensures RecordsFrom(msgs, i, pillsLeft) == |StreamFrom(msgs, i, pillsLeft)|
    decreases |msgs| - i
  {
    if i < |msgs| {
      match msgs[i]
      case Pill => RecordsFromStream(msgs, i + 1, pillsLeft - 1);
      case Data(recs) => RecordsFromStream(msgs, i + 1, pillsLeft);
    }
  }

  /** The log after popping the first `k` records of a batch: the last of them first, each
      named and appended, until a name fails. */
  function NamedPop(norm: Normalize, log: seq<Entry>, recs: seq<StatsRecord>, k: nat): Result<seq<Entry>, PyError>
    requires k <= |recs|
    decreases k
  {
    if k == 0 then Ok(log)
    else
      match norm(recs[k - 1].model)
      case Err(e) => Err(e)
      case Ok(name) => NamedPop(norm, log + [Entry(name, recs[k - 1])], recs, k - 1)
  }

  /** The log after the messages from index `i` on: each batch popped in turn, up to the pill
      that leaves `pillsLeft` at zero or below. */
  function NamedFrom(norm: Normalize, msgs: seq<Message>, i: nat, pillsLeft: int, log: seq<Entry>)
    : Result<seq<Entry>, PyError>
    requires i <= |msgs|
    decreases |msgs| - i
  {
    if i == |msgs| then Ok(log)
    else match msgs[i]
      case Pill => if pillsLeft <= 1 then Ok(log) else NamedFrom(norm, msgs, i + 1, pillsLeft - 1, log)
      case Data(recs) =>
        match NamedPop(norm, log, recs, |recs|)
        case Err(e) => Err(e)
        case Ok(log') => NamedFrom(norm, msgs, i + 1, pillsLeft, log')
  }

  /** The inner loop over one batch: records popped from the end of the list, each looked up
      through the cache and counted; `log` names the records counted before the batch. */
  method DrainBatch(norm: Normalize, state: AggState, ghost log: seq<Entry>,
                    mappings: map<string, string>, seen: set<string>, records: seq<StatsRecord>)
    returns (r: Result<AggState, PyError>, mappings': map<string, string>, seen': set<string>,
             ghost log': seq<Entry>)
    requires Summarizes(state, log)
    requires CacheFaithful(norm, mappings, seen)
    ensures r.Err? ==> NamedPop(norm, log, records, |records|) == Err(r.error)
    ensures r.Ok? ==> NamedPop(norm, log, records, |records|) == Ok(log') && Summarizes(r.value, log')
    ensures r.Ok? ==> CacheFaithful(norm, mappings', seen')
  {
    mappings', seen', log' := mappings, seen, log;
    // The list still to pop is `records[..left]`.
    var left := |records|;
    var current := state;
    while left > 0
      invariant 0 <= left <= |records|
      invariant NamedPop(norm, log, records, |records|) == NamedPop(norm, log', records, left)
      invariant Summarizes(current, log')
      invariant CacheFaithful(norm, mappings', seen')
    {
      var rec := records[left - 1];
      var name;
      name, mappings', seen' := Lookup(norm, mappings', seen', rec.model);
      if name.Err? {
        return Err(name.error), mappings', seen', log';
      }
      SummarizesSnoc(current, log', Entry(name.value, rec));
      current := Count(current, name.value, rec);
      log' := log' + [Entry(name.value, rec)];
      left := left - 1;
    }
    return Ok(current), mappings', seen', log';
  }

  /** `_afr_stats_worker` up to the cull: reads messages until `workers` pills have arrived
      (each reader sends its batches and then exactly one pill, so there are enough), pops
      every record of a batch from the end of its list, and counts it under its normalized
      name. `received` is `data_records_received`. */
  method StatsWorker(norm: Normalize, messages: seq<Message>, workers: int)
    returns (r: Result<AggState, PyError>, received: nat)
    requires PillsFrom(messages, 0) >= workers && PillsFrom(messages, 0) >= 1
    ensures r == WorkerResult(norm, messages, workers)
    ensures r.Ok? ==> received == RecordsFrom(messages, 0, workers)
  {
    var pills := 0;
    received := 0;
    var state := Empty;
    var mappings: map<string, string> := map[];
    var seen: set<string> := {};
    var i := 0;
    ghost var log: seq<Entry> := [];
    while true
      invariant 0 <= i <= |messages|
      invariant PillsFrom(messages, i) >= workers - pills && PillsFrom(messages, i) >= 1
      invariant NamedFrom(norm, messages, 0, workers, []) == NamedFrom(norm, messages, i, workers - pills, log)
      invariant Summarizes(state, log)
      invariant received + RecordsFrom(messages, i, workers - pills) == RecordsFrom(messages, 0, workers)
      invariant CacheFaithful(norm, mappings, seen)
      decreases |messages| - i
    {
      assert i < |messages|;
      if messages[i].Pill? {
        pills := pills + 1;
        if pills >= workers {
          break;
        }
        assert NamedFrom(norm, messages, i, workers - pills + 1, log)
            == NamedFrom(norm, messages, i + 1, workers - pills, log);
        i := i + 1;
        continue;
      }
      var records := messages[i].records;
      assert messages[i] == Data(records);
      var next;
      ghost var log';
      next, mappings, seen, log' := DrainBatch(norm, state, log, mappings, seen, records);
      if next.Err? {
        assert NamedFrom(norm, messages, i, workers - pills, log) == Err(next.error);
        return next, received;
      }
      assert NamedFrom(norm, messages, i, workers - pills, log)
          == NamedFrom(norm, messages, i + 1, workers - pills, log');
      state, log := next.value, log';
      received := received + |records|;
      i := i + 1;
    }
    return Ok(state), received;
  }

  /** The worker's result: the state built from the named stream, or the first error. */
  function WorkerResult(norm: Normalize, messages: seq<Message>, workers: int): Result<AggState, PyError> {
    match NamedFrom(norm, messages, 0, workers, [])
    case Err(e) => Err(e)
    case Ok(es) => Ok(Build(es))
  }

  /** What the worker computes is the fold of the stream it reads, and `data_records_received`
      is the length of that stream. */
  lemma {:induction false} WorkerStream(norm: Normalize, messages: seq<Message>, workers: int)
    ensures WorkerResult(norm, messages, workers) == Aggregate(norm, StreamFrom(messages, 0, workers))
    ensures NamedFrom(norm, messages, 0, workers, []).Ok? ==>
      |NamedFrom(norm, messages, 0, workers, []).value| == |StreamFrom(messages, 0, workers)|
  {
    NamedFromStream(norm, messages, 0, workers, [], []);
    assert [] + StreamFrom(messages, 0, workers) == StreamFrom(messages, 0, workers);
    NamedLength(norm, StreamFrom(messages, 0, workers));
  }

  /** Naming a stream gives one entry per record. */
  lemma {:induction false} NamedLength(norm: Normalize, recs: seq<StatsRecord>)
    ensures Named(norm, recs).Ok? ==> |Named(norm, recs).value| == |recs|
    decreases |recs|
  {
    if |recs| > 0 {
      NamedLength(norm, recs[..|recs| - 1]);
    }
  }

  /** Popping a batch onto the log of a stream names the stream extended by the batch in
      popping order. */
  lemma {:induction false} NamedPopStream(norm: Normalize, done: seq<StatsRecord>, log: seq<Entry>,
                                         recs: seq<StatsRecord>, k: nat)
    requires k <= |recs|
    requires Named(norm, done) == Ok(log)
    ensures NamedPop(norm, log, recs, k) == Named(norm, done + Reverse(recs[..k]))
    decreases k
  {
    if k == 0 {
      assert done + Reverse(recs[..0]) == done;
    } else {
      var rec := recs[k - 1];
      ReverseSplit(recs[..k], k - 1);
      assert recs[..k][k - 1..] == [rec] && recs[..k][..k - 1] == recs[..k - 1];
      assert Reverse([rec]) == [rec] by {
        assert [rec][1..] == [];
      }
      ConcatAssoc(done, [rec], Reverse(recs[..k - 1]));
      NamedSnoc(norm, done, rec);
      match norm(rec.model)
      case Err(e) =>
        NamedErrExtends(norm, done + [rec], Reverse(recs[..k - 1]));
      case Ok(name) =>
        NamedPopStream(norm, done + [rec], log + [Entry(name, rec)], recs, k - 1);
    }
  }

  /** Message by message is the same as record by record over the whole stream. */
  lemma {:induction false} NamedFromStream(norm: Normalize, msgs: seq<Message>, i: nat, pillsLeft: int,
                                          done: seq<StatsRecord>, log: seq<Entry>)
    requires i <= |msgs|
    requires Named(norm, done) == Ok(log)
    ensures NamedFrom(norm, msgs, i, pillsLeft, log) == Named(norm, done + StreamFrom(msgs, i, pillsLeft))
    decreases |msgs| - i
  {
    if i == |msgs| {
      assert done + [] == done;
    } else {
      match msgs[i]
      case Pill =>
        if pillsLeft <= 1 {
          assert done + [] == done;
        } else {
          NamedFromStream(norm, msgs, i + 1, pillsLeft - 1, done, log);
        }
      case Data(recs) =>
        var rest := StreamFrom(msgs, i + 1, pillsLeft);
        NamedPopStream(norm, done, log, recs, |recs|);
        assert recs[..|recs|] == recs;
        ConcatAssoc(done, Reverse(recs), rest);
        match NamedPop(norm, log, recs, |recs|)
        case Err(e) =>
          NamedErrExtends(norm, done + Reverse(recs), rest);
        case Ok(log') =>
          NamedFromStream(norm, msgs, i + 1, pillsLeft, done + Reverse(recs), log');
    }
  }

  /** Naming one more record. */
  lemma {:induction false} NamedSnoc(norm: Normalize, recs: seq<StatsRecord>, rec: StatsRecord)
    ensures Named(norm, recs + [rec])
      == match Named(norm, recs)
         case Err(e) => Err(e)
         case Ok(es) =>
           match norm(rec.model)
           case Err(e) => Err(e)
           case Ok(name) => Ok(es + [Entry(name, rec)])
  {
    assert (recs + [rec])[..|recs|] == recs;
  }

  /** Once naming has failed, more records do not change the error. */
  lemma {:induction false} NamedErrExtends(norm: Normalize, a: seq<StatsRecord>, b: seq<StatsRecord>)
    requires Named(norm, a).Err?
    ensures Named(norm, a + b) == Named(norm, a)
    decreases |b|
  {
    if |b| == 0 {
      assert a + b == a;
    } else {
      var init := b[..|b| - 1];
      NamedErrExtends(norm, a, init);
      assert (a + b)[..|a + b| - 1] == a + init;
    }
  }
}
