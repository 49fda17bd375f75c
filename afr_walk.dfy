/** The cumulative AFR walk shared by `_compute_drive_quarterly_afr`
    (afr_parquet_to_quarterly_csv.py) and `_do_quarterly_afr_calcs_for_all_drives`
    (afr_viz_csv.py): per model, quarters in sorted key order, running sums of drive-days and
    failures that start at zero and are never reset, and an AFR after each quarter. */
module AfrWalk {
  import opened Wrappers
  import opened Order
  import opened Tallies

  /** `_afr_calc`: failures per drive-day, times 365 days, as a percentage. Dividing by zero
      drive-days raises `ZeroDivisionError`. */
  function Afr(c: Counts): (r: Result<real, PyError>)
    ensures r.Err? <==> c.drives == 0
    ensures r.Err? ==> r.error == ZeroDivisionError
  {
    if c.drives == 0 then Err(ZeroDivisionError)
    else Ok((c.failures as real) / (c.drives as real) * 365.0 * 100.0)
  }

  /** The AFR is the failure count scaled by 36500 / drive-days. */
  lemma {:induction false} AfrScale(c: Counts)
    requires c.drives != 0
    ensures Afr(c).value * (c.drives as real) == (c.failures as real) * 36500.0
  {
    var d, f := c.drives as real, c.failures as real;
    assert f / d * d == f;
  }

  /** The sum of the cells the keys name, added in key order (a key without a cell adds
      nothing). */
  function SumOver(q: map<string, Counts>, keys: seq<string>): Counts {
    if |keys| == 0 then Zero
    else
      var last := keys[|keys| - 1];
      Plus(SumOver(q, keys[..|keys| - 1]), if last in q then q[last] else Zero)
  }

  /** The keys of `keys` that sort at or before `k`, in their order. */
  function KeysUpTo(keys: seq<string>, k: string): seq<string> {
    if |keys| == 0 then []
    else (if LessEq(keys[0], k) then [keys[0]] else []) + KeysUpTo(keys[1..], k)
  }

  /** The cumulative counts once quarter `k` has been added: the sum over every quarter whose
      key sorts at or before `k`, in sorted order. */
  function UpTo(q: map<string, Counts>, k: string): Counts {
    SumOver(q, KeysUpTo(Sorted(q.Keys), k))
  }

  /** In an ascending sequence, the keys up to the `i`-th are its first `i + 1`. */
  lemma {:induction false} KeysUpToPrefix(keys: seq<string>, i: int)
    requires Ascending(keys) && 0 <= i < |keys|
    ensures KeysUpTo(keys, keys[i]) == keys[..i + 1]
  {
    if i == 0 {
      KeysUpToNone(keys[1..], keys[0]);
      assert keys[..1] == [keys[0]];
    } else {
      KeysUpToPrefix(keys[1..], i - 1);
      assert keys[..i + 1] == [keys[0]] + keys[1..][..i];
    }
  }

  lemma {:induction false} KeysUpToNone(keys: seq<string>, k: string)
    requires forall j :: 0 <= j < |keys| ==> Less(k, keys[j])
    ensures KeysUpTo(keys, k) == []
  {
    if |keys| > 0 {
      LessIrreflexive(k);
      LessAsymmetric(k, keys[0]);
      KeysUpToNone(keys[1..], k);
    }
  }

  /** Adding the `i`-th sorted quarter to the running sum of the ones before it gives the
      cumulative count up to it. */
  lemma {:induction false} SortedPrefix(q: map<string, Counts>, i: int)
    requires 0 <= i < |Sorted(q.Keys)|
    ensures SumOver(q, Sorted(q.Keys)[..i + 1]) == UpTo(q, Sorted(q.Keys)[i])
    ensures Plus(SumOver(q, Sorted(q.Keys)[..i]), q[Sorted(q.Keys)[i]]) == UpTo(q, Sorted(q.Keys)[i])
  {
    var keys := Sorted(q.Keys);
    SortedAscending(q.Keys);
    KeysUpToPrefix(keys, i);
    SumOverSnoc(q, keys, i);
  }

  /** A prefix one key longer adds that key's cell. */
  lemma {:induction false} SumOverSnoc(q: map<string, Counts>, keys: seq<string>, i: int)
    requires 0 <= i < |keys| && keys[i] in q
    ensures SumOver(q, keys[..i + 1]) == Plus(SumOver(q, keys[..i]), q[keys[i]])
  {
    assert keys[..i + 1][..i] == keys[..i];
  }

  /** One model's AFR table: every quarter key, each with the cumulative counts up to it,
      which are the operands `Afr` divides (the drive-days never zero). The float the script
      stores is `Afr` of that entry. */
  ghost predicate AfrTable(q: map<string, Counts>, t: map<string, Counts>) {
    t.Keys == q.Keys && forall k :: k in q ==> t[k] == UpTo(q, k) && t[k].drives != 0
  }

  /** The inner loop: quarters in sorted order with running sums. It fails with
      `ZeroDivisionError` exactly when some running drive-day sum is zero. */
  method ModelAfr(q: map<string, Counts>) returns (r: Result<map<string, Counts>, PyError>)
    ensures r.Ok? <==> forall k :: k in q ==> UpTo(q, k).drives != 0
    ensures r.Ok? ==> AfrTable(q, r.value)
    ensures r.Err? ==> r.error == ZeroDivisionError
  {
    var keys := Sorted(q.Keys);
    var cumulative := Zero;
    var table: map<string, Counts> := map[];
    var i := 0;
    while i < |keys|
      invariant 0 <= i <= |keys|
      invariant cumulative == SumOver(q, keys[..i])
      invariant table.Keys <= q.Keys
      invariant forall k :: k in table ==> table[k] == UpTo(q, k) && table[k].drives != 0
      invariant forall j :: 0 <= j < i ==> keys[j] in table
    {
      SortedPrefix(q, i);
      cumulative := Plus(cumulative, q[keys[i]]);
      assert cumulative == UpTo(q, keys[i]);
      if cumulative.drives == 0 {
        assert keys[i] in q && UpTo(q, keys[i]).drives == 0;
        return Err(ZeroDivisionError);
      }
      ghost var old_table := table;
      table := table[keys[i] := cumulative];
      forall j | 0 <= j < i + 1 ensures keys[j] in table {
        if j < i { assert keys[j] in old_table; }
      }
      i := i + 1;
    }
    TableComplete(q, keys, table);
    return Ok(table);
  }

  lemma {:induction false} TableComplete(q: map<string, Counts>, keys: seq<string>, table: map<string, Counts>)
    requires keys == Sorted(q.Keys)
    requires table.Keys <= q.Keys
    requires forall k :: k in table ==> table[k] == UpTo(q, k) && table[k].drives != 0
    requires forall j :: 0 <= j < |keys| ==> keys[j] in table
    ensures AfrTable(q, table)
    ensures forall k :: k in q ==> UpTo(q, k).drives != 0
  {
    forall k | k in q ensures k in table {
      var j := IndexOf(keys, k);
    }
  }

  /** The outer loop: every model, in sorted order. */
  method AllModelsAfr(data: map<string, map<string, Counts>>)
    returns (r: Result<map<string, map<string, Counts>>, PyError>)
    ensures r.Ok? <==> forall m, k :: m in data && k in data[m] ==> UpTo(data[m], k).drives != 0
    ensures r.Ok? ==> r.value.Keys == data.Keys && forall m :: m in data ==> AfrTable(data[m], r.value[m])
    ensures r.Err? ==> r.error == ZeroDivisionError
  {
    var models := Sorted(data.Keys);
    var out: map<string, map<string, Counts>> := map[];
    var i := 0;
    while i < |models|
      invariant 0 <= i <= |models|
      invariant out.Keys <= data.Keys
      invariant forall m :: m in out ==> AfrTable(data[m], out[m])
      invariant forall j :: 0 <= j < i ==> models[j] in out
    {
      var t := ModelAfr(data[models[i]]);
      if t.Err? {
        return Err(t.error);
      }
      ghost var before := out;
      out := out[models[i] := t.value];
      forall j | 0 <= j < i + 1 ensures models[j] in out {
        if j < i { assert models[j] in before; }
      }
      i := i + 1;
    }
    AllTablesComplete(data, models, out);
    return Ok(out);
  }

  lemma {:induction false} AllTablesComplete(data: map<string, map<string, Counts>>, models: seq<string>,
                          out: map<string, map<string, Counts>>)
    requires models == Sorted(data.Keys)
    requires out.Keys <= data.Keys
    requires forall m :: m in out ==> AfrTable(data[m], out[m])
    requires forall j :: 0 <= j < |models| ==> models[j] in out
    ensures out.Keys == data.Keys
    ensures forall m, k :: m in data && k in data[m] ==> UpTo(data[m], k).drives != 0
  {
    forall m | m in data ensures m in out {
      var j := IndexOf(models, m);
    }
  }

  /** With non-negative cells the running sums never decrease along the sorted quarters. */
  lemma {:induction false} SumOverPrefixMonotone(q: map<string, Counts>, keys: seq<string>, i: nat)
    requires forall k :: k in q ==> q[k].drives >= 0 && q[k].failures >= 0
    requires i <= |keys|
    ensures SumOver(q, keys[..i]).drives <= SumOver(q, keys).drives
    ensures SumOver(q, keys[..i]).failures <= SumOver(q, keys).failures
    decreases |keys|
  {
    if i < |keys| {
      var init := keys[..|keys| - 1];
      assert keys[..i] == init[..i];
      SumOverPrefixMonotone(q, init, i);
    } else {
      assert keys[..i] == keys;
    }
  }

  /** In an ascending sequence, a key sorting at or before another comes at or before it. */
  lemma {:induction false} AscendingIndexOrder(keys: seq<string>, i: int, j: int)
    requires Ascending(keys) && 0 <= i < |keys| && 0 <= j < |keys| && LessEq(keys[i], keys[j])
    ensures i <= j
  {
    LessIrreflexive(keys[i]);
    LessAsymmetric(keys[i], keys[j]);
  }

  lemma {:induction false} UpToMonotone(q: map<string, Counts>, k1: string, k2: string)
    requires k1 in q && k2 in q && LessEq(k1, k2)
    requires forall k :: k in q ==> q[k].drives >= 0 && q[k].failures >= 0
    ensures UpTo(q, k1).drives <= UpTo(q, k2).drives
    ensures UpTo(q, k1).failures <= UpTo(q, k2).failures
  {
    var keys := Sorted(q.Keys);
    var i := IndexOf(keys, k1);
    var j := IndexOf(keys, k2);
    SortedAscending(q.Keys);
    AscendingIndexOrder(keys, i, j);
    SortedPrefix(q, i);
    SortedPrefix(q, j);
    PrefixesMonotone(q, keys, i + 1, j + 1);
  }

  lemma {:induction false} PrefixesMonotone(q: map<string, Counts>, keys: seq<string>, a: nat, b: nat)
    requires forall k :: k in q ==> q[k].drives >= 0 && q[k].failures >= 0
    requires a <= b <= |keys|
    ensures SumOver(q, keys[..a]).drives <= SumOver(q, keys[..b]).drives
    ensures SumOver(q, keys[..a]).failures <= SumOver(q, keys[..b]).failures
  {
    assert keys[..b][..a] == keys[..a];
    SumOverPrefixMonotone(q, keys[..b], a);
  }

  lemma {:induction false} IndexOf(keys: seq<string>, x: string) returns (i: int)
    requires x in keys
    ensures 0 <= i < |keys| && keys[i] == x
  {
    i :| 0 <= i < |keys| && keys[i] == x;
  }
}
