/** Python's whitespace handling on `str`: `isspace`, `split()`, `split(' ')`, `strip()`,
    `' '.join(...)` and `re.sub(r'\s+', ' ', ...)`, and the cleaner built from the last two. */
module Text {

  /** `c.isspace()`: the characters Python's `str.split()`, `str.strip()` and the regex
      class `\s` treat as whitespace. */
  predicate IsSpace(c: char) {
    c == ' ' || ('\t' <= c <= '\r') || ('\U{001C}' <= c <= '\U{001F}')
    || c == '\U{0085}' || c == '\U{00A0}' || c == '\U{1680}'
    || ('\U{2000}' <= c <= '\U{200A}') || c == '\U{2028}' || c == '\U{2029}'
    || c == '\U{202F}' || c == '\U{205F}' || c == '\U{3000}'
  }

  predicate NoSpace(s: string) {
    forall i :: 0 <= i < |s| ==> !IsSpace(s[i])
  }

  predicate AllSpace(s: string) {
    forall i :: 0 <= i < |s| ==> IsSpace(s[i])
  }

  /** A piece `str.split()` can return: non-empty, without whitespace. */
  predicate IsToken(s: string) {
    |s| > 0 && NoSpace(s)
  }

  /** A string with no whitespace at either end and whose only whitespace is single spaces
      between tokens: the shape every cleaned model name has. */
  predicate IsCollapsed(s: string) {
    forall i :: 0 <= i < |s| && IsSpace(s[i]) ==>
      s[i] == ' ' && 0 < i < |s| - 1 && !IsSpace(s[i - 1]) && !IsSpace(s[i + 1])
  }

  /** Length of the leading run of non-whitespace characters. */
  function TokenLen(s: string): (n: nat)
    ensures n <= |s|
    ensures forall i :: 0 <= i < n ==> !IsSpace(s[i])
    ensures n < |s| ==> IsSpace(s[n])
  {
    if |s| == 0 || IsSpace(s[0]) then 0 else 1 + TokenLen(s[1..])
  }

  /** Length of the leading run of whitespace characters. */
  function SpaceLen(s: string): (n: nat)
    ensures n <= |s|
    ensures forall i :: 0 <= i < n ==> IsSpace(s[i])
    ensures n < |s| ==> !IsSpace(s[n])
  {
    if |s| == 0 || !IsSpace(s[0]) then 0 else 1 + SpaceLen(s[1..])
  }

  /** `s.split()`: the maximal runs of non-whitespace characters, in order. */
  function Split(s: string): (r: seq<string>)
    ensures forall i :: 0 <= i < |r| ==> IsToken(r[i])
    decreases |s|
  {
    if |s| == 0 then []
    else if IsSpace(s[0]) then Split(s[1..])
    else
      var n := TokenLen(s);
      [s[..n]] + Split(s[n..])
  }

  /** `sep.join(parts)`. */
  function Join(sep: string, parts: seq<string>): string {
    if |parts| == 0 then ""
    else if |parts| == 1 then parts[0]
    else parts[0] + sep + Join(sep, parts[1..])
  }

  /** `s.split(c)` for a one-character separator: the pieces between occurrences of `c`,
      empty pieces included, so the result is never empty. */
  function SplitOn(s: string, c: char): (r: seq<string>)
    ensures |r| >= 1
    ensures forall i :: 0 <= i < |r| ==> c !in r[i]
  {
    if |s| == 0 then [""]
    else
      var rest := SplitOn(s[1..], c);
      if s[0] == c then [""] + rest
      else [[s[0]] + rest[0]] + rest[1..]
  }

  function StripLeft(s: string): string {
    if |s| > 0 && IsSpace(s[0]) then StripLeft(s[1..]) else s
  }

  function StripRight(s: string): string {
    if |s| > 0 && IsSpace(s[|s| - 1]) then StripRight(s[..|s| - 1]) else s
  }

  /** `s.strip()`: `s` without its leading and trailing whitespace. */
  function Strip(s: string): (r: string)
    ensures |r| > 0 ==> !IsSpace(r[0]) && !IsSpace(r[|r| - 1])
  {
    StripLeftBounds(s);
    StripRightBounds(StripLeft(s));
    StripRight(StripLeft(s))
  }

  /** `re.sub(r'\s+', ' ', s)`: every maximal whitespace run becomes one space. */
  function CollapseRuns(s: string): string
    decreases |s|
  {
    if |s| == 0 then ""
    else if IsSpace(s[0]) then " " + CollapseRuns(s[SpaceLen(s)..])
    else [s[0]] + CollapseRuns(s[1..])
  }

  /** `re.sub(r'\s+', ' ', s.strip())`, the model-name cleaner of compute_afr.py. */
  function Clean(s: string): string {
    CollapseRuns(Strip(s))
  }

  // ---------------------------------------------------------------------------------------
  // strip()

  lemma {:induction false} StripLeftBounds(s: string)
    ensures |StripLeft(s)| > 0 ==> !IsSpace(StripLeft(s)[0])
    decreases |s|
  {
    if |s| > 0 && IsSpace(s[0]) {
      StripLeftBounds(s[1..]);
    }
  }

  lemma {:induction false} StripRightBounds(s: string)
    ensures |StripRight(s)| > 0 ==> !IsSpace(StripRight(s)[|StripRight(s)| - 1])
    ensures |s| > 0 && !IsSpace(s[0]) ==> |StripRight(s)| > 0 && StripRight(s)[0] == s[0]
    decreases |s|
  {
    if |s| > 0 && IsSpace(s[|s| - 1]) {
      var t := s[..|s| - 1];
      StripRightBounds(t);
      if !IsSpace(s[0]) {
        assert |t| > 0 && t[0] == s[0];
      }
    }
  }

  /** `lstrip()` drops a prefix made only of whitespace. */
  lemma {:induction false} StripLeftIndex(s: string) returns (k: nat)
    ensures k <= |s| && StripLeft(s) == s[k..]
    ensures forall j :: 0 <= j < k ==> IsSpace(s[j])
    decreases |s|
  {
    if |s| > 0 && IsSpace(s[0]) {
      var k' := StripLeftIndex(s[1..]);
      k := k' + 1;
      assert s[1..][k'..] == s[k..];
      forall j | 0 <= j < k ensures IsSpace(s[j]) {
        if j > 0 { assert s[j] == s[1..][j - 1]; }
      }
    } else {
      k := 0;
    }
  }

  /** `rstrip()` drops a suffix made only of whitespace. */
  lemma {:induction false} StripRightIndex(s: string) returns (k: nat)
    ensures k <= |s| && StripRight(s) == s[..k]
    ensures forall j :: k <= j < |s| ==> IsSpace(s[j])
    decreases |s|
  {
    if |s| > 0 && IsSpace(s[|s| - 1]) {
      var t := s[..|s| - 1];
      k := StripRightIndex(t);
      assert t[..k] == s[..k];
      forall j | k <= j < |s| ensures IsSpace(s[j]) {
        if j < |t| { assert s[j] == t[j]; }
      }
    } else {
      k := |s|;
    }
  }

  /** What `strip()` keeps is a slice of the input with only whitespace around it. */
  lemma {:induction false} StripSlice(s: string) returns (a: nat, b: nat)
    ensures a <= b <= |s| && Strip(s) == s[a..b]
    ensures forall j :: 0 <= j < a ==> IsSpace(s[j])
    ensures forall j :: b <= j < |s| ==> IsSpace(s[j])
    ensures a < b ==> !IsSpace(s[a]) && !IsSpace(s[b - 1])
  {
    a := StripLeftIndex(s);
    var k := StripRightIndex(s[a..]);
    b := a + k;
    assert s[a..][..k] == s[a..b];
    forall j | b <= j < |s| ensures IsSpace(s[j]) {
      assert s[j] == s[a..][j - a];
    }
    if a < b {
      assert Strip(s)[0] == s[a] && Strip(s)[b - a - 1] == s[b - 1];
    }
  }

  /** A string with no whitespace at either end is its own `strip()`. */
  lemma {:induction false} StripNoSpace(s: string)
    requires |s| > 0 && !IsSpace(s[0]) && !IsSpace(s[|s| - 1])
    ensures Strip(s) == s
  {
  }

  // ---------------------------------------------------------------------------------------
  // split() and join

  lemma {:induction false} TokenLenPrefix(p: string, t: string)
    requires NoSpace(p)
    requires |t| == 0 || IsSpace(t[0])
    ensures TokenLen(p + t) == |p|
    decreases |p|
  {
    if |p| > 0 {
      assert (p + t)[1..] == p[1..] + t;
      TokenLenPrefix(p[1..], t);
    } else {
      assert p + t == t;
    }
  }

  lemma {:induction false} SplitToken(p: string, t: string)
    requires IsToken(p)
    requires |t| == 0 || IsSpace(t[0])
    ensures Split(p + t) == [p] + Split(t)
  {
    TokenLenPrefix(p, t);
    assert (p + t)[..|p|] == p && (p + t)[|p|..] == t;
  }

  lemma {:induction false} SplitDropSpaces(w: string, u: string)
    requires AllSpace(w)
    ensures Split(w + u) == Split(u)
    decreases |w|
  {
    if |w| > 0 {
      assert (w + u)[1..] == w[1..] + u;
      SplitDropSpaces(w[1..], u);
    } else {
      assert w + u == u;
    }
  }

  /** Joining tokens with single spaces and splitting again gives the tokens back. */
  lemma {:induction false} SplitJoin(parts: seq<string>)
    requires forall i :: 0 <= i < |parts| ==> IsToken(parts[i])
    ensures Split(Join(" ", parts)) == parts
    decreases |parts|
  {
    if |parts| == 1 {
      SplitToken(parts[0], "");
      assert parts[0] + "" == parts[0];
    } else if |parts| > 1 {
      var rest := Join(" ", parts[1..]);
      SplitJoin(parts[1..]);
      assert parts[0] + " " + rest == parts[0] + (" " + rest);
      SplitToken(parts[0], " " + rest);
      SplitDropSpaces(" ", rest);
      assert parts == [parts[0]] + parts[1..];
    }
  }

  lemma {:induction false} SplitStripLeft(s: string)
    ensures Split(StripLeft(s)) == Split(s)
    decreases |s|
  {
    if |s| > 0 && IsSpace(s[0]) { SplitStripLeft(s[1..]); }
  }

  lemma {:induction false} TokenLenAppendSpace(s: string, c: char)
    requires IsSpace(c)
    ensures TokenLen(s + [c]) == TokenLen(s)
    decreases |s|
  {
    if |s| > 0 && !IsSpace(s[0]) {
      assert (s + [c])[1..] == s[1..] + [c];
      TokenLenAppendSpace(s[1..], c);
    }
  }

  lemma {:induction false} SplitAppendSpace(s: string, c: char)
    requires IsSpace(c)
    ensures Split(s + [c]) == Split(s)
    decreases |s|
  {
    if |s| == 0 {
      assert Split([c]) == Split([c][1..]);
    } else if IsSpace(s[0]) {
      assert (s + [c])[1..] == s[1..] + [c];
      SplitAppendSpace(s[1..], c);
    } else {
      var n := TokenLen(s);
      TokenLenAppendSpace(s, c);
      assert (s + [c])[..n] == s[..n];
      assert (s + [c])[n..] == s[n..] + [c];
      SplitAppendSpace(s[n..], c);
    }
  }

  lemma {:induction false} SplitStripRight(s: string)
    ensures Split(StripRight(s)) == Split(s)
    decreases |s|
  {
    if |s| > 0 && IsSpace(s[|s| - 1]) {
      var t := s[..|s| - 1];
      SplitStripRight(t);
      assert s == t + [s[|s| - 1]];
      SplitAppendSpace(t, s[|s| - 1]);
    }
  }

  /** Stripping does not change the tokens `split()` finds. */
  lemma {:induction false} SplitStrip(s: string)
    ensures Split(Strip(s)) == Split(s)
  {
    SplitStripLeft(s);
    SplitStripRight(StripLeft(s));
  }

  // ---------------------------------------------------------------------------------------
  // re.sub(r'\s+', ' ', ...)

  lemma {:induction false} CollapseRunsToken(p: string, u: string)
    requires NoSpace(p)
    ensures CollapseRuns(p + u) == p + CollapseRuns(u)
    decreases |p|
  {
    if |p| > 0 {
      assert (p + u)[1..] == p[1..] + u;
      CollapseRunsToken(p[1..], u);
      assert [p[0]] + (p[1..] + CollapseRuns(u)) == p + CollapseRuns(u);
    } else {
      assert p + u == u;
    }
  }

  lemma {:induction false} CollapseRunsTrimmed(t: string)
    requires |t| > 0 ==> !IsSpace(t[0]) && !IsSpace(t[|t| - 1])
    ensures CollapseRuns(t) == Join(" ", Split(t))
    decreases |t|
  {
    if |t| > 0 {
      var p := t[..TokenLen(t)];
      var w := t[TokenLen(t)..];
      assert t == p + w;
      if |w| == 0 {
        LastToken(t);
      } else {
        var u := w[SpaceLen(w)..];
        GapShape(w, t[|t| - 1]);
        GapCollapse(p, w);
        GapSplit(p, w);
        CollapseRunsTrimmed(u);
        JoinCons(" ", p, Split(u));
      }
    }
  }

  lemma {:induction false} JoinCons(sep: string, p: string, rest: seq<string>)
    requires |rest| > 0
    ensures Join(sep, [p] + rest) == p + sep + Join(sep, rest)
  {
    assert ([p] + rest)[1..] == rest;
  }

  /** A string that is one token. */
  lemma {:induction false} LastToken(t: string)
    requires |t| > 0 && TokenLen(t) == |t|
    ensures CollapseRuns(t) == t && Split(t) == [t]
  {
    CollapseRunsToken(t, "");
    SplitToken(t, "");
    assert t + "" == t;
  }

  /** After a gap of whitespace that ends before a non-space last character comes a
      non-empty, trimmed rest with at least one token. */
  lemma {:induction false} GapShape(w: string, last: char)
    requires |w| > 0 && IsSpace(w[0]) && w[|w| - 1] == last && !IsSpace(last)
    ensures 0 < SpaceLen(w) < |w|
    ensures !IsSpace(w[SpaceLen(w)..][0]) && !IsSpace(w[SpaceLen(w)..][|w| - SpaceLen(w) - 1])
    ensures |Split(w[SpaceLen(w)..])| > 0
  {
    var u := w[SpaceLen(w)..];
    assert u[|u| - 1] == last;
    assert Split(u) == [u[..TokenLen(u)]] + Split(u[TokenLen(u)..]);
  }

  /** `re.sub` turns the gap after a token into one space. */
  lemma {:induction false} GapCollapse(p: string, w: string)
    requires NoSpace(p) && |w| > 0 && IsSpace(w[0])
    ensures CollapseRuns(p + w) == p + " " + CollapseRuns(w[SpaceLen(w)..])
  {
    CollapseRunsToken(p, w);
    ConcatAssoc(p, " ", CollapseRuns(w[SpaceLen(w)..]));
  }

  lemma {:induction false} ConcatAssoc<T>(a: seq<T>, b: seq<T>, c: seq<T>)
    ensures a + (b + c) == a + b + c
  {
  }

  /** `split()` skips the gap after a token. */
  lemma {:induction false} GapSplit(p: string, w: string)
    requires IsToken(p) && |w| > 0 && IsSpace(w[0])
    ensures Split(p + w) == [p] + Split(w[SpaceLen(w)..])
  {
    SplitToken(p, w);
    var m := SpaceLen(w);
    assert w == w[..m] + w[m..];
    SplitDropSpaces(w[..m], w[m..]);
  }

  /** The cleaner puts exactly one space between the whitespace-separated tokens of `s`. */
  lemma {:induction false} CleanIsJoinedSplit(s: string)
    ensures Clean(s) == Join(" ", Split(s))
  {
    CollapseRunsTrimmed(Strip(s));
    SplitStrip(s);
  }

  lemma {:induction false} JoinCollapsed(parts: seq<string>)
    requires forall i :: 0 <= i < |parts| ==> IsToken(parts[i])
    ensures IsCollapsed(Join(" ", parts))
    ensures |parts| > 0 ==>
      IsToken(parts[0]) && |Join(" ", parts)| > 0 && Join(" ", parts)[0] == parts[0][0]
    decreases |parts|
  {
    if |parts| > 1 {
      var p := parts[0];
      var rest := Join(" ", parts[1..]);
      JoinCollapsed(parts[1..]);
      var r := p + " " + rest;
      forall i | 0 <= i < |r| && IsSpace(r[i])
        ensures r[i] == ' ' && 0 < i < |r| - 1 && !IsSpace(r[i - 1]) && !IsSpace(r[i + 1])
      {
        if i == |p| {
          assert r[i + 1] == rest[0] == parts[1][0];
        } else if i > |p| {
          assert r[i] == rest[i - |p| - 1];
        }
      }
    }
  }

  /** A cleaned name has no whitespace at its ends and only single spaces inside. */
  lemma {:induction false} CleanCollapsed(s: string)
    ensures IsCollapsed(Clean(s))
  {
    CleanIsJoinedSplit(s);
    JoinCollapsed(Split(s));
  }

  /** Cleaning twice is cleaning once. */
  lemma {:induction false} CleanIdempotent(s: string)
    ensures Clean(Clean(s)) == Clean(s)
  {
    CleanIsJoinedSplit(s);
    CleanIsJoinedSplit(Clean(s));
    SplitJoin(Split(s));
  }

  // ---------------------------------------------------------------------------------------
  // split(c)

  /** Splitting on `c` and joining with `c` gives the string back. */
  lemma {:induction false} JoinSplitOn(s: string, c: char)
    ensures Join([c], SplitOn(s, c)) == s
    decreases |s|
  {
    if |s| > 0 {
      var rest := SplitOn(s[1..], c);
      JoinSplitOn(s[1..], c);
      if s[0] == c {
        assert ([""] + rest)[1..] == rest;
        assert s == [c] + s[1..];
      } else {
        var r := [[s[0]] + rest[0]] + rest[1..];
        if |rest| == 1 {
          assert s == [s[0]] + s[1..];
        } else {
          assert r[1..] == rest[1..];
          assert Join([c], rest) == rest[0] + [c] + Join([c], rest[1..]);
          assert s == [s[0]] + s[1..];
        }
      }
    }
  }

  lemma {:induction false} SplitOnPiece(p: string, t: string, c: char)
    requires c !in p
    ensures SplitOn(p + t, c) == [p + SplitOn(t, c)[0]] + SplitOn(t, c)[1..]
    decreases |p|
  {
    if |p| > 0 {
      assert (p + t)[1..] == p[1..] + t;
      SplitOnPiece(p[1..], t, c);
      assert [p[0]] + (p[1..] + SplitOn(t, c)[0]) == p + SplitOn(t, c)[0];
    } else {
      assert p + t == t && p + SplitOn(t, c)[0] == SplitOn(t, c)[0];
      assert SplitOn(t, c) == [SplitOn(t, c)[0]] + SplitOn(t, c)[1..];
    }
  }

  /** Joining pieces that do not contain `c` with `c`, then splitting on `c`, gives the
      pieces back. */
  lemma {:induction false} SplitOnJoin(parts: seq<string>, c: char)
    requires |parts| >= 1
    requires forall i :: 0 <= i < |parts| ==> c !in parts[i]
    ensures SplitOn(Join([c], parts), c) == parts
    decreases |parts|
  {
    if |parts| == 1 {
      SplitOnPiece(parts[0], "", c);
      assert parts[0] + "" == parts[0];
    } else {
      var rest := Join([c], parts[1..]);
      SplitOnJoin(parts[1..], c);
      assert parts[0] + [c] + rest == parts[0] + ([c] + rest);
      SplitOnPiece(parts[0], [c] + rest, c);
      assert ([c] + rest)[1..] == rest;
      assert SplitOn([c] + rest, c) == [""] + parts[1..];
      assert parts[0] + "" == parts[0];
      assert parts == [parts[0]] + parts[1..];
    }
  }

  /** `Clean(s).split(' ')` is `s.split()`, except that a blank `s` gives `['']`. */
  lemma {:induction false} SplitOnClean(s: string)
    ensures SplitOn(Clean(s), ' ') == (if |Split(s)| == 0 then [""] else Split(s))
  {
    CleanIsJoinedSplit(s);
    if |Split(s)| > 0 {
      forall i | 0 <= i < |Split(s)| ensures ' ' !in Split(s)[i] {
        assert IsToken(Split(s)[i]);
      }
      SplitOnJoin(Split(s), ' ');
    }
  }
}
