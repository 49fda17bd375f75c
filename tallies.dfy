/** The counters the scripts keep in nested dictionaries, and sums over all their cells. */
module Tallies {

  /** One cell of a `dict[key][key2]` counter with two fields: drive-days (or drives seen) and
      failures. Cells are created at zero and only ever added to. */
  datatype Counts = Counts(drives: int, failures: int)

  const Zero: Counts := Counts(0, 0)

  function Plus(a: Counts, b: Counts): Counts {
    Counts(a.drives + b.drives, a.failures + b.failures)
  }

  /** The cell at `m[k1][k2]`, or zero when either key is missing: the value the scripts
      create before they add to it. */
  function CellOr<K1, K2>(m: map<K1, map<K2, Counts>>, k1: K1, k2: K2): Counts {
    if k1 in m && k2 in m[k1] then m[k1][k2] else Zero
  }

  /** `m[k1][k2] += d`, creating `m[k1]` and `m[k1][k2]` at zero first when missing. */
  function AddAt<K1(!new), K2(!new)>(m: map<K1, map<K2, Counts>>, k1: K1, k2: K2, d: Counts)
    : (r: map<K1, map<K2, Counts>>)
    ensures r.Keys == m.Keys + {k1}
    ensures r[k1].Keys == (if k1 in m then m[k1].Keys else {}) + {k2}
    ensures r[k1][k2] == Counts(CellOr(m, k1, k2).drives + d.drives, CellOr(m, k1, k2).failures + d.failures)
  {
    var inner := if k1 in m then m[k1] else map[];
    m[k1 := inner[k2 := Counts(CellOr(m, k1, k2).drives + d.drives, CellOr(m, k1, k2).failures + d.failures)]]
  }

  /** Every other cell, and every other first key, is left as it was. */
  lemma {:induction false} AddAtElsewhere<K1(!new), K2(!new)>(m: map<K1, map<K2, Counts>>, k1: K1, k2: K2, d: Counts)
    ensures forall j1, j2 :: (j1 != k1 || j2 != k2) ==> CellOr(AddAt(m, k1, k2, d), j1, j2) == CellOr(m, j1, j2)
    ensures forall j :: j in m && j != k1 ==> AddAt(m, k1, k2, d)[j] == m[j]
  {
  }

  /** Adding to one cell changes that cell only, and creates it if it was missing; `mine`
      says whether the cell looked at is the one added to. */
  lemma {:induction false} AddAtCell<K1(!new), K2(!new)>(m: map<K1, map<K2, Counts>>, k1: K1, k2: K2, d: Counts,
                                                         j1: K1, j2: K2, mine: bool)
    requires mine == (k1 == j1 && k2 == j2)
    ensures CellOr(AddAt(m, k1, k2, d), j1, j2)
      == if mine then Counts(CellOr(m, j1, j2).drives + d.drives, CellOr(m, j1, j2).failures + d.failures)
         else CellOr(m, j1, j2)
    ensures (j1 in AddAt(m, k1, k2, d) && j2 in AddAt(m, k1, k2, d)[j1])
      <==> mine || (j1 in m && j2 in m[j1])
  {
    AddAtElsewhere(m, k1, k2, d);
  }

  // ---------------------------------------------------------------------------------------
  // sums over every cell

  /** The sum of the values of a map, in no particular order. */
  ghost function SumValues<K>(m: map<K, int>): int
    decreases |m|
  {
    if |m| == 0 then 0
    else
      var k := Pick(m);
      m[k] + SumValues(m - {k})
  }

  ghost function Pick<K>(m: map<K, int>): (k: K)
    requires |m| > 0
    ensures k in m
  {
    assert exists k :: k in m.Keys by {
      if forall k :: k !in m.Keys { assert false; }
    }
    var k :| k in m.Keys; k
  }

  lemma {:induction false} SumValuesRemove<K>(m: map<K, int>, k: K)
    requires k in m
    ensures SumValues(m) == m[k] + SumValues(m - {k})
    decreases |m|
  {
    var j := Pick(m);
    if j != k {
      var mj := m - {j};
      var mk := m - {k};
      SumValuesRemove(mj, k);
      SumValuesRemove(mk, j);
      assert mj - {k} == mk - {j};
    }
  }

  /** Replacing one value changes the sum by the difference. */
  lemma {:induction false} SumValuesUpdate<K>(m: map<K, int>, k: K, v: int)
    ensures SumValues(m[k := v]) == SumValues(m) - (if k in m then m[k] else 0) + v
  {
    SumValuesRemove(m[k := v], k);
    UpdateThenRemove(m, k, v);
    if k in m {
      SumValuesRemove(m, k);
    } else {
      RemoveAbsent(m, k);
    }
  }

  lemma {:induction false} UpdateThenRemove<K, V>(m: map<K, V>, k: K, v: V)
    ensures m[k := v] - {k} == m - {k}
  {
    assert (m[k := v] - {k}).Keys == (m - {k}).Keys;
  }

  lemma {:induction false} RemoveAbsent<K, V>(m: map<K, V>, k: K)
    requires k !in m
    ensures m - {k} == m
  {
    assert (m - {k}).Keys == m.Keys;
  }

  /** Every drive-day (or drive) count in a nested counter, per first key. */
  ghost function DrivesPerKey<K1, K2>(m: map<K1, map<K2, Counts>>): (r: map<K1, int>)
    ensures r.Keys == m.Keys && forall k1 :: k1 in m ==> r[k1] == SumDrives(m[k1])
  {
    map k1 | k1 in m :: SumDrives(m[k1])
  }

  /** The drive counts of one inner counter. */
  function DrivesOf<K2>(inner: map<K2, Counts>): (r: map<K2, int>)
    ensures r.Keys == inner.Keys && forall k2 :: k2 in inner ==> r[k2] == inner[k2].drives
  {
    map k2 | k2 in inner :: inner[k2].drives
  }

  ghost function SumDrives<K2>(inner: map<K2, Counts>): int {
    SumValues(DrivesOf(inner))
  }

  /** The total drive-days (or drives) over every cell of a nested counter. */
  ghost function TotalDrives<K1, K2>(m: map<K1, map<K2, Counts>>): int {
    SumValues(DrivesPerKey(m))
  }

  lemma {:induction false} SumDrivesUpdate<K2>(inner: map<K2, Counts>, k2: K2, c: Counts)
    ensures SumDrives(inner[k2 := c])
      == SumDrives(inner) - (if k2 in inner then inner[k2].drives else 0) + c.drives
  {
    var proj := DrivesOf(inner);
    assert DrivesOf(inner[k2 := c]) == proj[k2 := c.drives];
    SumValuesUpdate(proj, k2, c.drives);
  }

  lemma {:induction false} DrivesPerKeyUpdate<K1, K2>(m: map<K1, map<K2, Counts>>, k1: K1, v: map<K2, Counts>)
    ensures DrivesPerKey(m[k1 := v]) == DrivesPerKey(m)[k1 := SumDrives(v)]
  {
    var m' := m[k1 := v];
    var dm := DrivesPerKey(m);
    var dr := DrivesPerKey(m');
    var sv := SumDrives(v);
    var expected := dm[k1 := sv];
    assert dr.Keys == expected.Keys;
    forall j | j in dr ensures dr[j] == expected[j] {
      if j == k1 {
        assert m'[j] == v;
      } else {
        assert m'[j] == m[j];
      }
    }
  }

  lemma {:induction false} SumDrivesEmpty<K2>(inner: map<K2, Counts>)
    requires |inner| == 0
    ensures SumDrives(inner) == 0
  {
    assert |DrivesOf(inner).Keys| == 0;
  }

  /** Adding `d` to one cell adds `d.drives` to the total. */
  lemma {:induction false} TotalDrivesAddAt<K1(!new), K2(!new)>(m: map<K1, map<K2, Counts>>, k1: K1, k2: K2, d: Counts)
    ensures TotalDrives(AddAt(m, k1, k2, d)) == TotalDrives(m) + d.drives
  {
    var r := AddAt(m, k1, k2, d);
    assert r == m[k1 := r[k1]];
    TotalDrivesUpdate(m, k1, r[k1]);
    SumDrivesAddAt(m, k1, k2, d);
  }

  /** Replacing one inner counter replaces its drives in the total. */
  lemma {:induction false} TotalDrivesUpdate<K1, K2>(m: map<K1, map<K2, Counts>>, k1: K1, v: map<K2, Counts>)
    ensures TotalDrives(m[k1 := v]) == TotalDrives(m) - (if k1 in m then SumDrives(m[k1]) else 0) + SumDrives(v)
  {
    DrivesPerKeyUpdate(m, k1, v);
    SumValuesUpdate(DrivesPerKey(m), k1, SumDrives(v));
  }

  /** Adding `d` to one cell adds `d.drives` to its inner counter's drives. */
  lemma {:induction false} SumDrivesAddAt<K1(!new), K2(!new)>(m: map<K1, map<K2, Counts>>, k1: K1, k2: K2, d: Counts)
    ensures SumDrives(AddAt(m, k1, k2, d)[k1]) == (if k1 in m then SumDrives(m[k1]) else 0) + d.drives
  {
    var inner := if k1 in m then m[k1] else map[];
    var c := Plus(CellOr(m, k1, k2), d);
    assert AddAt(m, k1, k2, d)[k1] == inner[k2 := c];
    SumDrivesUpdate(inner, k2, c);
    if k1 !in m {
      SumDrivesEmpty(inner);
    }
  }

  lemma {:induction false} TotalDrivesEmpty<K1, K2>(m: map<K1, map<K2, Counts>>)
    requires |m| == 0
    ensures TotalDrives(m) == 0
  {
    assert |DrivesPerKey(m)| == 0 by { assert DrivesPerKey(m).Keys == m.Keys; }
  }

  /** Deleting a first key removes its drives from the total. */
  lemma {:induction false} TotalDrivesRemove<K1, K2>(m: map<K1, map<K2, Counts>>, k1: K1)
    requires k1 in m
    ensures TotalDrives(m - {k1}) == TotalDrives(m) - SumDrives(m[k1])
  {
    var dm := DrivesPerKey(m);
    var rest := DrivesPerKey(m - {k1});
    SumValuesRemove(dm, k1);
    assert rest == dm - {k1} by {
      assert rest.Keys == (dm - {k1}).Keys;
      forall j | j in rest ensures rest[j] == (dm - {k1})[j] {
        assert (m - {k1})[j] == m[j];
      }
    }
  }

  // ---------------------------------------------------------------------------------------
  // sums along a list of keys

  /** The failure counts of one inner counter. */
  function FailuresOf<K2>(inner: map<K2, Counts>): (r: map<K2, int>)
    ensures r.Keys == inner.Keys && forall k2 :: k2 in inner ==> r[k2] == inner[k2].failures
  {
    map k2 | k2 in inner :: inner[k2].failures
  }

  ghost function SumFailures<K2>(inner: map<K2, Counts>): int {
    SumValues(FailuresOf(inner))
  }

  /** The counts of `inner` at `keys`, added in list order: a running total. */
  function SumAt<K>(inner: map<K, Counts>, keys: seq<K>): Counts
    requires forall k :: k in keys ==> k in inner
    decreases |keys|
  {
    if |keys| == 0 then Zero else Plus(SumAt(inner, keys[..|keys| - 1]), inner[keys[|keys| - 1]])
  }

  /** The values of `m` at `keys`, added in list order. */
  function SeqSum<K>(m: map<K, int>, keys: seq<K>): int
    requires forall k :: k in keys ==> k in m
    decreases |keys|
  {
    if |keys| == 0 then 0 else SeqSum(m, keys[..|keys| - 1]) + m[keys[|keys| - 1]]
  }

  /** Only the values at the listed keys matter. */
  lemma {:induction false} SeqSumSame<K>(a: map<K, int>, b: map<K, int>, keys: seq<K>)
    requires forall k :: k in keys ==> k in a && k in b && a[k] == b[k]
    ensures SeqSum(a, keys) == SeqSum(b, keys)
    decreases |keys|
  {
    if |keys| > 0 {
      SeqSumSame(a, b, keys[..|keys| - 1]);
    }
  }

  /** Along a duplicate-free list of all its keys, the ordered sum is the sum of the map. */
  lemma {:induction false} SeqSumAll<K>(m: map<K, int>, keys: seq<K>)
    requires forall k :: k in keys <==> k in m
    requires forall i, j :: 0 <= i < j < |keys| ==> keys[i] != keys[j]
    ensures SeqSum(m, keys) == SumValues(m)
    decreases |keys|
  {
    if |keys| == 0 {
      SumValuesEmpty(m);
    } else {
      var n := |keys| - 1;
      var k := keys[n];
      CoverDropLast(m, keys);
      SeqSumAll(m - {k}, keys[..n]);
      SeqSumStep(m, keys);
    }
  }

  lemma {:induction false} SumValuesEmpty<K>(m: map<K, int>)
    requires forall k :: k !in m
    ensures SumValues(m) == 0
  {
    assert m.Keys == {};
  }

  lemma {:induction false} SeqSumStep<K>(m: map<K, int>, keys: seq<K>)
    requires |keys| > 0 && forall k :: k in keys ==> k in m
    requires keys[|keys| - 1] !in keys[..|keys| - 1]
    requires var n := |keys| - 1; SeqSum(m - {keys[n]}, keys[..n]) == SumValues(m - {keys[n]})
    ensures SeqSum(m, keys) == SumValues(m)
  {
    var n := |keys| - 1;
    var k := keys[n];
    SeqSumSame(m, m - {k}, keys[..n]);
    SumValuesRemove(m, k);
  }

  /** A running total is the ordered sums of its drive and its failure counts. */
  lemma {:induction false} SumAtProjects<K>(inner: map<K, Counts>, keys: seq<K>)
    requires forall k :: k in keys ==> k in inner
    ensures SumAt(inner, keys) == Counts(SeqSum(DrivesOf(inner), keys), SeqSum(FailuresOf(inner), keys))
    decreases |keys|
  {
    if |keys| > 0 {
      SumAtProjects(inner, keys[..|keys| - 1]);
    }
  }

  /** Along a duplicate-free list of all its keys, the running total ends at the counter's
      total drive and failure counts, whatever the order. */
  lemma {:induction false} SumAtAll<K>(inner: map<K, Counts>, keys: seq<K>)
    requires forall k :: k in keys <==> k in inner
    requires forall i, j :: 0 <= i < j < |keys| ==> keys[i] != keys[j]
    ensures SumAt(inner, keys) == Counts(SumDrives(inner), SumFailures(inner))
  {
    SumAtProjects(inner, keys);
    SeqSumAll(DrivesOf(inner), keys);
    SeqSumAll(FailuresOf(inner), keys);
  }

  /** Dropping the last key of a duplicate-free cover leaves a cover of the rest. */
  lemma {:induction false} CoverDropLast<K, V>(inner: map<K, V>, keys: seq<K>)
    requires |keys| > 0 && forall k :: k in keys <==> k in inner
    requires forall i, j :: 0 <= i < j < |keys| ==> keys[i] != keys[j]
    ensures var n := |keys| - 1;
      && (forall k :: k in keys[..n] <==> k in inner - {keys[n]})
      && (forall i, j :: 0 <= i < j < n ==> keys[..n][i] != keys[..n][j])
  {
    var n := |keys| - 1;
    forall j | j in inner - {keys[n]} ensures j in keys[..n] {
      var i :| 0 <= i < |keys| && keys[i] == j;
      assert keys[..n][i] == j;
    }
  }

  // ---------------------------------------------------------------------------------------
  // single-value counters: `d[k1][k2] += n`

  /** The value at `m[k1][k2]`, or zero when either key is missing. */
  function IntAt<K1, K2>(m: map<K1, map<K2, int>>, k1: K1, k2: K2): int {
    if k1 in m && k2 in m[k1] then m[k1][k2] else 0
  }

  /** `m[k1][k2] += n`, creating `m[k1]` and `m[k1][k2]` at zero first when missing. */
  function Bump<K1(!new), K2(!new)>(m: map<K1, map<K2, int>>, k1: K1, k2: K2, n: int)
    : (r: map<K1, map<K2, int>>)
    ensures r.Keys == m.Keys + {k1}
    ensures r[k1].Keys == (if k1 in m then m[k1].Keys else {}) + {k2}
    ensures r[k1][k2] == IntAt(m, k1, k2) + n
  {
    var inner := if k1 in m then m[k1] else map[];
    m[k1 := inner[k2 := IntAt(m, k1, k2) + n]]
  }

  /** Every other cell, and every other first key, is left as it was. */
  lemma {:induction false} BumpElsewhere<K1(!new), K2(!new)>(m: map<K1, map<K2, int>>, k1: K1, k2: K2, n: int)
    ensures forall j1, j2 :: (j1 != k1 || j2 != k2) ==> IntAt(Bump(m, k1, k2, n), j1, j2) == IntAt(m, j1, j2)
    ensures forall j1, j2 :: (j1 in Bump(m, k1, k2, n) && j2 in Bump(m, k1, k2, n)[j1])
              <==> (j1 == k1 && j2 == k2) || (j1 in m && j2 in m[j1])
  {
    var r := Bump(m, k1, k2, n);
    forall j1, j2 ensures (j1 in r && j2 in r[j1]) <==> (j1 == k1 && j2 == k2) || (j1 in m && j2 in m[j1]) {
      if j1 != k1 {
        assert j1 in r <==> j1 in m;
        if j1 in m {
          assert r[j1] == m[j1];
        }
      }
    }
  }

  /** Every count of a nested single-value counter, per first key. */
  ghost function IntsPerKey<K1, K2>(m: map<K1, map<K2, int>>): (r: map<K1, int>)
    ensures r.Keys == m.Keys && forall k1 :: k1 in m ==> r[k1] == SumValues(m[k1])
  {
    map k1 | k1 in m :: SumValues(m[k1])
  }

  /** The sum over every cell of a nested single-value counter. */
  ghost function TotalInts<K1, K2>(m: map<K1, map<K2, int>>): int {
    SumValues(IntsPerKey(m))
  }

  lemma {:induction false} TotalIntsEmpty<K1, K2>(m: map<K1, map<K2, int>>)
    requires |m| == 0
    ensures TotalInts(m) == 0
  {
    assert |IntsPerKey(m)| == 0 by { assert IntsPerKey(m).Keys == m.Keys; }
  }

  /** `m[k1][k2] += n` adds `n` to the total. */
  lemma {:induction false} TotalIntsBump<K1(!new), K2(!new)>(m: map<K1, map<K2, int>>, k1: K1, k2: K2, n: int)
    ensures TotalInts(Bump(m, k1, k2, n)) == TotalInts(m) + n
  {
    var b := Bump(m, k1, k2, n);
    if k1 in m && k2 in m[k1] {
      var inner := m[k1];
      var inner' := inner[k2 := inner[k2] + n];
      assert b == m[k1 := inner'];
      TotalIntsUpdate(m, k1, inner');
      InnerSumPresent(inner, k2, n, inner');
    } else if k1 in m {
      var inner := m[k1];
      var inner' := inner[k2 := n];
      assert b == m[k1 := inner'];
      TotalIntsUpdate(m, k1, inner');
      InnerSumAbsent(inner, k2, n, inner');
    } else {
      var empty: map<K2, int> := map[];
      var inner' := empty[k2 := n];
      assert b == m[k1 := inner'];
      TotalIntsUpdate(m, k1, inner');
      InnerSumAbsent(empty, k2, n, inner');
      SumValuesEmpty(empty);
    }
  }

  /** Adding to a value that is there adds to the sum. */
  lemma {:induction false} InnerSumPresent<K>(inner: map<K, int>, k: K, n: int, inner': map<K, int>)
    requires k in inner && inner' == inner[k := inner[k] + n]
    ensures SumValues(inner') == SumValues(inner) + n
  {
    SumValuesUpdate(inner, k, inner[k] + n);
  }

  /** A new value adds itself to the sum. */
  lemma {:induction false} InnerSumAbsent<K>(inner: map<K, int>, k: K, n: int, inner': map<K, int>)
    requires k !in inner && inner' == inner[k := n]
    ensures SumValues(inner') == SumValues(inner) + n
  {
    SumValuesUpdate(inner, k, n);
  }

  /** Replacing one inner counter replaces its sum in the total. */
  lemma {:induction false} TotalIntsUpdate<K1, K2>(m: map<K1, map<K2, int>>, k1: K1, v: map<K2, int>)
    ensures TotalInts(m[k1 := v]) == TotalInts(m) - (if k1 in m then SumValues(m[k1]) else 0) + SumValues(v)
  {
    IntsPerKeyUpdate(m, k1, v);
    SumValuesUpdate(IntsPerKey(m), k1, SumValues(v));
  }

  lemma {:induction false} IntsPerKeyUpdate<K1, K2>(m: map<K1, map<K2, int>>, k1: K1, v: map<K2, int>)
    ensures IntsPerKey(m[k1 := v]) == IntsPerKey(m)[k1 := SumValues(v)]
  {
    var m' := m[k1 := v];
    var expected := IntsPerKey(m)[k1 := SumValues(v)];
    var pr := IntsPerKey(m');
    assert pr.Keys == expected.Keys;
    forall j | j in pr ensures pr[j] == expected[j] {
      if j == k1 {
        assert m'[j] == v;
      } else {
        assert m'[j] == m[j];
      }
    }
  }
}
