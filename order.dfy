/** Python's ordering of `str` values (code point by code point, a proper prefix first), the
    `sorted(...)` enumeration of a set of keys, and `max(...)` over strings. */
module Order {

  /** Python's `a < b` on strings. */
  predicate Less(a: string, b: string)
    decreases |a|
  {
    if |a| == 0 then |b| > 0
    else if |b| == 0 then false
    else if a[0] != b[0] then a[0] < b[0]
    else Less(a[1..], b[1..])
  }

  predicate LessEq(a: string, b: string) {
    a == b || Less(a, b)
  }

  lemma {:induction false} LessIrreflexive(a: string)
    ensures !Less(a, a)
    decreases |a|
  {
    if |a| > 0 { LessIrreflexive(a[1..]); }
  }

  lemma {:induction false} LessAsymmetric(a: string, b: string)
    ensures !(Less(a, b) && Less(b, a))
    decreases |a|
  {
    if |a| > 0 && |b| > 0 && a[0] == b[0] { LessAsymmetric(a[1..], b[1..]); }
  }

  lemma {:induction false} LessTransitive(a: string, b: string, c: string)
    requires Less(a, b) && Less(b, c)
    ensures Less(a, c)
    decreases |a|
  {
    if |a| > 0 && a[0] == b[0] && b[0] == c[0] {
      LessTransitive(a[1..], b[1..], c[1..]);
    }
  }

  lemma {:induction false} LessTotal(a: string, b: string)
    ensures a == b || Less(a, b) || Less(b, a)
    decreases |a|
  {
    if |a| > 0 && |b| > 0 && a[0] == b[0] {
      LessTotal(a[1..], b[1..]);
      if a[1..] == b[1..] {
        assert a == [a[0]] + a[1..] && b == [b[0]] + b[1..];
      }
    }
  }

  lemma {:induction false} LessFacts()
    ensures forall a, b :: !(Less(a, b) && Less(b, a))
    ensures forall a, b, c :: Less(a, b) && Less(b, c) ==> Less(a, c)
    ensures forall a, b :: a == b || Less(a, b) || Less(b, a)
  {
    forall a, b ensures !(Less(a, b) && Less(b, a)) { LessAsymmetric(a, b); }
    forall a, b, c | Less(a, b) && Less(b, c) ensures Less(a, c) { LessTransitive(a, b, c); }
    forall a, b ensures a == b || Less(a, b) || Less(b, a) { LessTotal(a, b); }
  }

  /** Every string in an ascending sequence is smaller than the ones after it. */
  predicate Ascending(s: seq<string>) {
    forall i, j :: 0 <= i < j < |s| ==> Less(s[i], s[j])
  }

  lemma {:induction false} LeastExists(s: set<string>)
    requires s != {}
    ensures exists m :: m in s && forall x :: x in s ==> LessEq(m, x)
    decreases |s|
  {
    var y :| y in s;
    if s - {y} == {} {
      assert s == {y};
      assert forall x :: x in s ==> LessEq(y, x);
    } else {
      LeastExists(s - {y});
      var m :| m in s - {y} && forall x :: x in s - {y} ==> LessEq(m, x);
      LessTotal(y, m);
      if Less(y, m) {
        forall x | x in s ensures LessEq(y, x) {
          if x != y {
            assert x in s - {y};
            if m != x { LessTransitive(y, m, x); }
          }
        }
      } else {
        forall x | x in s ensures LessEq(m, x) {
          if x != y { assert x in s - {y}; }
        }
      }
    }
  }

  lemma {:induction false} LessEqAntisymmetric()
    ensures forall a, b :: LessEq(a, b) && LessEq(b, a) ==> a == b
  {
    forall a, b | LessEq(a, b) && LessEq(b, a) ensures a == b {
      LessAsymmetric(a, b);
    }
  }

  /** The smallest string of a non-empty set. */
  function Least(s: set<string>): (m: string)
    requires s != {}
    ensures m in s && forall x :: x in s ==> LessEq(m, x)
  {
    LeastExists(s);
    LessEqAntisymmetric();
    var m :| m in s && forall x :: x in s ==> LessEq(m, x); m
  }

  /** `sorted(s)`: the elements of `s` in ascending order. */
  function Sorted(s: set<string>): (r: seq<string>)
    ensures |r| == |s|
    ensures forall x :: x in r <==> x in s
    decreases |s|
  {
    if s == {} then [] else [Least(s)] + Sorted(s - {Least(s)})
  }

  /** The members of `s`, each once, in some order: iterating over a dictionary whose
      iteration order does not change the result. */
  method Enumerate(s: set<string>) returns (r: seq<string>)
    ensures forall x :: x in r <==> x in s
    ensures |r| == |s|
  {
    r := Sorted(s);
  }

  lemma {:induction false} SortedAscending(s: set<string>)
    ensures Ascending(Sorted(s))
    decreases |s|
  {
    if s != {} {
      var m := Least(s);
      var rest := Sorted(s - {m});
      SortedAscending(s - {m});
      assert forall x :: x in rest ==> Less(m, x);
      assert Sorted(s) == [m] + rest;
    }
  }

  /** An ascending sequence is determined by its elements: any enumeration of a set that is
      ascending is `Sorted` of that set. */
  lemma {:induction false} AscendingUnique(a: seq<string>, b: seq<string>)
    requires Ascending(a) && Ascending(b)
    requires forall x :: x in a <==> x in b
    ensures a == b
    decreases |a| + |b|, |b|
  {
    if |a| > 0 {
      assert a[0] in b;
      var k :| 0 <= k < |b| && b[k] == a[0];
      assert b[0] in a;
      var j :| 0 <= j < |a| && a[j] == b[0];
      LessAsymmetric(a[0], b[0]);
      assert a[0] == b[0];
      LessIrreflexive(a[0]);
      forall x ensures x in a[1..] <==> x in b[1..] {
        if x in a[1..] {
          var k :| 1 <= k < |a| && a[k] == x;
          assert Less(a[0], a[k]);
          assert x in b;
          var k' :| 0 <= k' < |b| && b[k'] == x;
          assert k' != 0;
          assert b[1..][k' - 1] == x;
        }
        if x in b[1..] {
          var k :| 1 <= k < |b| && b[k] == x;
          assert Less(b[0], b[k]);
          assert x in a;
          var k' :| 0 <= k' < |a| && a[k'] == x;
          assert k' != 0;
          assert a[1..][k' - 1] == x;
        }
      }
      AscendingUnique(a[1..], b[1..]);
      assert a == [a[0]] + a[1..] && b == [b[0]] + b[1..];
    } else if |b| > 0 {
      AscendingUnique(b, a);
    }
  }

  lemma {:induction false} SortedUnique(s: set<string>, r: seq<string>)
    requires Ascending(r) && forall x :: x in r <==> x in s
    ensures r == Sorted(s)
  {
    SortedAscending(s);
    AscendingUnique(r, Sorted(s));
  }

  /** No string twice. */
  predicate Distinct(names: seq<string>) {
    forall a, b :: 0 <= a < b < |names| ==> names[a] != names[b]
  }

  /** `sorted(set)` lists each member once. */
  lemma {:induction false} SortedDistinct(s: set<string>)
    ensures Distinct(Sorted(s))
  {
    SortedAscending(s);
    forall a, b | 0 <= a < b < |Sorted(s)| ensures Sorted(s)[a] != Sorted(s)[b] {
      LessIrreflexive(Sorted(s)[a]);
    }
  }

  /** Python's two-argument `max(a, b)` on strings: `b` only when it is strictly greater. */
  function Max2(a: string, b: string): (r: string)
    ensures (r == a || r == b) && LessEq(a, r) && LessEq(b, r)
  {
    LessTotal(a, b);
    if Less(a, b) then b else a
  }

  /** The greatest string of a non-empty set (`sorted(s)[-1]`). */
  function Greatest(s: set<string>): (m: string)
    requires s != {}
    ensures m in s && forall x :: x in s ==> LessEq(x, m)
  {
    var r := Sorted(s);
    SortedAscending(s);
    var m := r[|r| - 1];
    assert m in s;
    assert forall x :: x in s ==> LessEq(x, m) by {
      forall x | x in s ensures LessEq(x, m) {
        assert x in r;
        var k :| 0 <= k < |r| && r[k] == x;
        assert k == |r| - 1 || Less(r[k], r[|r| - 1]);
      }
    }
    m
  }

  // ---- integers (day numbers, day indexes) ----

  predicate AscendingInts(s: seq<int>) {
    forall i, j :: 0 <= i < j < |s| ==> s[i] < s[j]
  }

  lemma {:induction false} LeastIntExists(s: set<int>)
    requires s != {}
    ensures exists m :: m in s && forall x :: x in s ==> m <= x
    decreases |s|
  {
    if forall x :: x !in s { assert false; }
    var y :| y in s;
    if s - {y} == {} {
      assert s == {y};
      assert forall x :: x in s ==> y <= x;
    } else {
      LeastIntExists(s - {y});
      var m :| m in s - {y} && forall x :: x in s - {y} ==> m <= x;
      if y < m {
        forall x | x in s ensures y <= x {
          if x != y { assert x in s - {y}; }
        }
      } else {
        forall x | x in s ensures m <= x {
          if x != y { assert x in s - {y}; }
        }
      }
    }
  }

  function LeastInt(s: set<int>): (m: int)
    requires s != {}
    ensures m in s && forall x :: x in s ==> m <= x
  {
    LeastIntExists(s);
    var m :| m in s && forall x :: x in s ==> m <= x; m
  }

  /** `sorted(s)` of a set of integers. */
  function SortedInts(s: set<int>): (r: seq<int>)
    ensures AscendingInts(r) && |r| == |s|
    ensures forall x :: x in r <==> x in s
    decreases |s|
  {
    if s == {} then []
    else
      var m := LeastInt(s);
      [m] + SortedInts(s - {m})
  }

  /** An ascending sequence of integers is determined by its elements. */
  lemma {:induction false} AscendingIntsUnique(a: seq<int>, b: seq<int>)
    requires AscendingInts(a) && AscendingInts(b)
    requires forall x :: x in a <==> x in b
    ensures a == b
    decreases |a| + |b|, |b|
  {
    if |a| > 0 {
      assert a[0] in a;
      var k :| 0 <= k < |b| && b[k] == a[0];
      assert b[0] in b;
      var j :| 0 <= j < |a| && a[j] == b[0];
      assert b[0] <= b[k] && a[0] <= a[j];
      assert a[0] == b[0];
      forall x ensures x in a[1..] <==> x in b[1..] {
        if x in a[1..] {
          var k :| 1 <= k < |a| && a[k] == x;
          assert x in b;
          var k' :| 0 <= k' < |b| && b[k'] == x;
          assert b[1..][k' - 1] == x;
        }
        if x in b[1..] {
          var k :| 1 <= k < |b| && b[k] == x;
          assert x in a;
          var k' :| 0 <= k' < |a| && a[k'] == x;
          assert a[1..][k' - 1] == x;
        }
      }
      AscendingIntsUnique(a[1..], b[1..]);
      assert a == [a[0]] + a[1..] && b == [b[0]] + b[1..];
    } else if |b| > 0 {
      AscendingIntsUnique(b, a);
    }
  }
}
