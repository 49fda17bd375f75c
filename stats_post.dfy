/** What the stats worker of afr_parquet_to_quarterly_csv.py does to its counters before it
    sends them back: `_cull_drive_models`, which drops the models with too few distinct
    drives, and `_add_drive_deploy_counts_to_model_names`, which renames each model to
    "<name> (<drives, comma-grouped>)". Both change the dictionary in place; here they take
    it and return its new value. */
module StatsPost {
  import opened Wrappers
  import opened Text
  import opened Numerals
  import opened Tallies
  import opened Normalizer
  import opened StatsAggregator
  import opened AggregateFacts

  /** The per-model counters: model name, then quarter. */
  type Table = map<string, map<string, Counts>>

  // ---------------------------------------------------------------------------------------
  // the cull

  /** The counters of the models with at least `minDrives` distinct serial numbers. */
  function Culled(data: Table, serials: map<string, set<string>>, minDrives: int): Table
    requires data.Keys <= serials.Keys
  {
    map k | k in data && |serials[k]| >= minDrives :: data[k]
  }

  /** The models with fewer than `minDrives` distinct serial numbers. */
  function TooFew(data: Table, serials: map<string, set<string>>, minDrives: int): set<string>
    requires data.Keys <= serials.Keys
  {
    set k | k in data && |serials[k]| < minDrives
  }

  /** `_cull_drive_models`: a first pass collects the models to cull, a second deletes
      them. */
  method Cull(data: Table, serials: map<string, set<string>>, minDrives: int) returns (r: Result<Table, PyError>)
    ensures r.Err? <==> !(data.Keys <= serials.Keys)
    ensures r.Err? ==> r.error.KeyError? && r.error.key in data && r.error.key !in serials
    ensures r.Ok? ==> data.Keys <= serials.Keys && r.value == Culled(data, serials, minDrives)
  {
    var toCull := CollectCulls(data, serials, minDrives);
    if toCull.Err? {
      return Err(toCull.error);
    }
    var kept := DeleteAll(data, toCull.value);
    CulledIsRemoval(data, serials, minDrives);
    return Ok(kept);
  }

  /** The first pass of `_cull_drive_models`: every model's serial set is looked up (a
      missing one raises KeyError) and those below the minimum are listed. */
  method CollectCulls(data: Table, serials: map<string, set<string>>, minDrives: int)
    returns (r: Result<set<string>, PyError>)
    ensures r.Err? <==> !(data.Keys <= serials.Keys)
    ensures r.Err? ==> r.error.KeyError? && r.error.key in data && r.error.key !in serials
    ensures r.Ok? ==> data.Keys <= serials.Keys && r.value == TooFew(data, serials, minDrives)
  {
    var toCull: set<string> := {};
    var pending := data.Keys;
    while pending != {}
      invariant pending <= data.Keys
      invariant forall k :: k in data && k !in pending ==> k in serials
      invariant toCull == set k | k in data && k !in pending && k in serials && |serials[k]| < minDrives
      decreases |pending|
    {
      var k :| k in pending;
      if k !in serials {
        return Err(KeyError(k));
      }
      if |serials[k]| < minDrives {
        toCull := toCull + {k};
      }
      pending := pending - {k};
    }
    return Ok(toCull);
  }

  /** The second pass: `del data[model]` for every listed model. */
  method DeleteAll(data: Table, doomed: set<string>) returns (kept: Table)
    requires doomed <= data.Keys
    ensures kept == data - doomed
  {
    kept := data;
    var rest := doomed;
    while rest != {}
      invariant rest <= doomed
      invariant kept == data - (doomed - rest)
      decreases |rest|
    {
      var k :| k in rest;
      kept := kept - {k};
      rest := rest - {k};
      assert kept == data - (doomed - rest);
    }
  }

  /** Deleting the models below the minimum leaves exactly the culled counters. */
  lemma {:induction false} CulledIsRemoval(data: Table, serials: map<string, set<string>>, minDrives: int)
    requires data.Keys <= serials.Keys
    ensures data - TooFew(data, serials, minDrives) == Culled(data, serials, minDrives)
  {
  }

  /** A model survives the cull exactly when its distinct-drive count reaches the minimum
      (a count equal to it is kept), and a survivor's counters are untouched. */
  lemma {:induction false} CulledKeeps(data: Table, serials: map<string, set<string>>, minDrives: int, k: string)
    requires data.Keys <= serials.Keys
    ensures k in Culled(data, serials, minDrives) <==> k in data && |serials[k]| >= minDrives
    ensures k in Culled(data, serials, minDrives) ==> Culled(data, serials, minDrives)[k] == data[k]
  {
  }

  /** Culling twice with the same minimum removes nothing more. */
  lemma {:induction false} CullIdempotent(data: Table, serials: map<string, set<string>>, minDrives: int)
    requires data.Keys <= serials.Keys
    ensures Culled(Culled(data, serials, minDrives), serials, minDrives) == Culled(data, serials, minDrives)
  {
    var once := Culled(data, serials, minDrives);
    assert Culled(once, serials, minDrives).Keys == once.Keys;
  }

  /** A higher minimum keeps fewer models. */
  lemma {:induction false} CullMonotone(data: Table, serials: map<string, set<string>>, low: int, high: int)
    requires data.Keys <= serials.Keys && low <= high
    ensures Culled(data, serials, high).Keys <= Culled(data, serials, low).Keys
  {
  }

  // ---------------------------------------------------------------------------------------
  // the deploy counts in the names

  /** `f"{name} ({count:,})"`. */
  function Label(name: string, count: nat): string {
    name + " (" + Grouped(count) + ")"
  }

  /** The label a model gets from its serial set. */
  function LabelOf(serials: map<string, set<string>>, name: string): string {
    Label(name, if name in serials then |serials[name]| else 0)
  }

  function MissingError(name: string): PyError {
    ValueError("Did not find drive " + name + " in serial numbers per model")
  }

  /** No model is renamed onto the old name of a model. Without this the in-place renaming
      could overwrite a model not yet renamed, and its outcome would depend on the order of
      the dictionary. */
  predicate NoClash(data: Table, serials: map<string, set<string>>) {
    forall a :: a in data ==> LabelOf(serials, a) !in data
  }

  /** The labels of a set of models. */
  function Labels(serials: map<string, set<string>>, names: set<string>): set<string> {
    set k | k in names :: LabelOf(serials, k)
  }

  /** Every model's counters under its label. */
  function Relabelled(data: Table, serials: map<string, set<string>>): (r: Table)
    ensures r.Keys == Labels(serials, data.Keys)
    ensures forall k :: k in data ==> r[LabelOf(serials, k)] == data[k]
  {
    LabelsInjective(data, serials);
    map k | k in data :: LabelOf(serials, k) := data[k]
  }

  lemma {:induction false} LabelsInjective(data: Table, serials: map<string, set<string>>)
    ensures forall a, b :: a in data && b in data && LabelOf(serials, a) == LabelOf(serials, b) ==> a == b
  {
    forall a, b | a in data && b in data && LabelOf(serials, a) == LabelOf(serials, b)
      ensures a == b
    {
      LabelInjective(a, if a in serials then |serials[a]| else 0, b, if b in serials then |serials[b]| else 0);
    }
  }

  /** `_add_drive_deploy_counts_to_model_names`: a first pass checks that every model has a
      serial set and raises ValueError before anything changes, a second pass moves each
      model's counters from its old name to its label. */
  method AddDeployCounts(data: Table, serials: map<string, set<string>>) returns (r: Result<Table, PyError>)
    ensures r.Err? <==> !(data.Keys <= serials.Keys)
    ensures r.Err? ==> exists k :: k in data && k !in serials && r.error == MissingError(k)
    ensures r.Ok? && NoClash(data, serials) ==> r.value == Relabelled(data, serials)
  {
    var pending := data.Keys;
    while pending != {}
      invariant pending <= data.Keys
      invariant forall k :: k in data && k !in pending ==> k in serials
      decreases |pending|
    {
      var k :| k in pending;
      if k !in serials {
        return Err(MissingError(k));
      }
      pending := pending - {k};
    }
    var renamed := Rename(data, serials);
    return Ok(renamed);
  }

  /** The second pass: `data[label] = data.pop(name)` for each model in turn. */
  method Rename(data: Table, serials: map<string, set<string>>) returns (current: Table)
    requires data.Keys <= serials.Keys
    ensures NoClash(data, serials) ==> current == Relabelled(data, serials)
  {
    ghost var clean := NoClash(data, serials);
    current := data;
    var rest := data.Keys;
    ghost var owner: map<string, string> := map[];
    while rest != {}
      invariant rest <= data.Keys && rest <= current.Keys
      invariant clean ==> Renaming(data, serials, rest, owner, current)
      decreases |rest|
    {
      var name :| name in rest;
      var newName := Label(name, |serials[name]|);
      var moved := current[name];
      if clean {
        RenameStep(data, serials, rest, owner, current, name);
      }
      current := current - {name};
      current := current[newName := moved];
      rest := rest - {name};
      owner := owner[newName := name];
    }
    if clean {
      RenameDone(data, serials, owner, current);
    }
  }

  /** Part way through the renaming: the models still to rename sit under their old names,
      the renamed ones under their labels (`owner` maps each label back to its model), and
      there is nothing else. */
  ghost predicate Renaming(data: Table, serials: map<string, set<string>>, rest: set<string>,
                           owner: map<string, string>, current: Table) {
    rest <= data.Keys
    && current.Keys == rest + owner.Keys
    && (forall k :: k in rest ==> current[k] == data[k])
    && (forall t :: t in owner ==>
          owner[t] in data && owner[t] !in rest && LabelOf(serials, owner[t]) == t && current[t] == data[owner[t]])
    && (forall k :: k in data && k !in rest ==> LabelOf(serials, k) in owner)
  }

  /** Renaming one more model keeps the others where they are: by `NoClash` its label is no
      model's old name, and by `LabelInjective` no other model's label. */
  lemma {:induction false} RenameStep(data: Table, serials: map<string, set<string>>, rest: set<string>,
                   owner: map<string, string>, current: Table, name: string)
    requires NoClash(data, serials) && name in rest
    requires Renaming(data, serials, rest, owner, current)
    ensures Renaming(data, serials, rest - {name}, owner[LabelOf(serials, name) := name],
                     (current - {name})[LabelOf(serials, name) := current[name]])
  {
    var tag := LabelOf(serials, name);
    assert tag !in owner by {
      if tag in owner {
        LabelInjective(name, if name in serials then |serials[name]| else 0,
                       owner[tag], if owner[tag] in serials then |serials[owner[tag]]| else 0);
      }
    }
    assert tag !in rest;
  }

  lemma {:induction false} RenameDone(data: Table, serials: map<string, set<string>>, owner: map<string, string>, current: Table)
    requires Renaming(data, serials, {}, owner, current)
    ensures current == Relabelled(data, serials)
  {
    var r := Relabelled(data, serials);
    forall t | t in current ensures t in r && current[t] == r[t] {
      assert owner[t] in data;
    }
  }

  /** The position of the last '(' in a string, or -1. */
  function LastOpen(t: string): (i: int)
    ensures -1 <= i < |t|
    ensures i >= 0 ==> t[i] == '('
  {
    if |t| == 0 then -1 else if t[|t| - 1] == '(' then |t| - 1 else LastOpen(t[..|t| - 1])
  }

  lemma {:induction false} LastOpenAppend(p: string, q: string)
    requires forall i :: 0 <= i < |q| ==> q[i] != '('
    ensures LastOpen(p + q) == LastOpen(p)
    decreases |q|
  {
    if |q| == 0 {
      assert p + q == p;
    } else {
      assert (p + q)[..|p + q| - 1] == p + q[..|q| - 1];
      LastOpenAppend(p, q[..|q| - 1]);
    }
  }

  /** The last '(' of a label opens its count: a count's digits and commas hold no
      parenthesis. */
  lemma {:induction false} LabelOpen(name: string, count: nat)
    ensures LastOpen(Label(name, count)) == |name| + 1
  {
    var g := Grouped(count);
    assert Label(name, count) == (name + " (") + (g + ")");
    assert (name + " (")[..|name| + 2] == name + " (";
    LastOpenAppend(name + " (", g + ")");
  }

  /** A label determines the name and the count it was made from. */
  lemma {:induction false} LabelInjective(a: string, n: nat, b: string, m: nat)
    requires Label(a, n) == Label(b, m)
    ensures a == b && n == m
  {
    var t := Label(a, n);
    LabelOpen(a, n);
    LabelOpen(b, m);
    assert a == t[..|a|] && b == t[..|b|];
    assert Grouped(n) == t[|a| + 2..|t| - 1] && Grouped(m) == t[|b| + 2..|t| - 1];
    GroupedDigits(n);
    GroupedDigits(m);
    DecimalInjective(n, m);
  }

  /** A name of two single-space-separated tokens gets a label of three tokens. */
  lemma {:induction false} LabelTokens(name: string, count: nat)
    requires |Split(name)| == 2 && name == Join(" ", Split(name))
    ensures |Split(Label(name, count))| == 3
  {
    var t := Split(name);
    var tail := "(" + Grouped(count) + ")";
    assert IsToken(tail) by {
      forall i | 0 <= i < |tail| ensures !IsSpace(tail[i]) {
        if 0 < i < |tail| - 1 {
          assert tail[i] == Grouped(count)[i - 1];
        }
      }
    }
    assert Join(" ", [t[1], tail]) == t[1] + " " + tail by {
      assert [t[1], tail][1..] == [tail];
    }
    assert Join(" ", [t[0], t[1], tail]) == t[0] + " " + (t[1] + " " + tail) by {
      assert [t[0], t[1], tail][1..] == [t[1], tail];
    }
    assert Join(" ", t) == t[0] + " " + t[1] by {
      assert t[1..] == [t[1]];
    }
    assert Label(name, count) == Join(" ", [t[0], t[1], tail]);
    SplitJoin([t[0], t[1], tail]);
  }

  /** Normalized names are two tokens and labels three, so the renaming never lands on a
      model's old name. */
  lemma {:induction false} TwoTokenNoClash(data: Table, serials: map<string, set<string>>)
    requires forall k :: k in data ==> |Split(k)| == 2 && k == Join(" ", Split(k))
    ensures NoClash(data, serials)
  {
    forall a | a in data
      ensures LabelOf(serials, a) !in data
    {
      LabelTokens(a, if a in serials then |serials[a]| else 0);
    }
  }

  // ---------------------------------------------------------------------------------------
  // after the worker

  /** Every model the worker counts under `NormalizeSeparate` is a normalized name: two
      single-space-separated tokens, the first a recognised manufacturer. */
  lemma {:induction false} WorkerNames(messages: seq<Message>, workers: int, name: string)
    requires WorkerResult(NormalizeSeparate, messages, workers).Ok?
    requires name in WorkerResult(NormalizeSeparate, messages, workers).value.data
    ensures |Split(name)| == 2 && name == Join(" ", Split(name)) && Split(name)[0] in SeparateMfrs
  {
    var i := WorkerNameSource(NormalizeSeparate, messages, workers, name);
    var raw := StreamFrom(messages, 0, workers)[i].model;
    assert NormalizedFrom(raw, name, SeparateMfrs);
  }

  /** The worker's counters pass through the cull and the renaming without an error, and the
      renaming is collision-free: every surviving model ends up under its own label. */
  lemma {:induction false} WorkerPostprocess(messages: seq<Message>, workers: int, minDrives: int)
    requires WorkerResult(NormalizeSeparate, messages, workers).Ok?
    ensures var s := WorkerResult(NormalizeSeparate, messages, workers).value;
      s.data.Keys == s.serials.Keys
      && NoClash(Culled(s.data, s.serials, minDrives), s.serials)
  {
    var s := WorkerResult(NormalizeSeparate, messages, workers).value;
    WorkerStream(NormalizeSeparate, messages, workers);
    var es := Named(NormalizeSeparate, StreamFrom(messages, 0, workers)).value;
    BuildKeys(es);
    var kept := Culled(s.data, s.serials, minDrives);
    forall k | k in kept ensures |Split(k)| == 2 && k == Join(" ", Split(k)) {
      WorkerNames(messages, workers, k);
    }
    TwoTokenNoClash(kept, s.serials);
  }
}
