/** The user-supplied regular expressions the scripts read from JSON files. Python's regex
    engine is not modelled: `re.search(p, s)` (or `re.match(p, s)`) is an opaque predicate
    `matches(p, s)` that the caller passes in. */
module Patterns {
  import opened Wrappers

  /** Some pattern of the list matches `text`. */
  predicate AnyMatch(matches: (string, string) -> bool, patterns: seq<string>, text: string) {
    exists i :: 0 <= i < |patterns| && matches(patterns[i], text)
  }

  /** The index of the first pattern that matches `text`, if any. */
  function FirstIndex(matches: (string, string) -> bool, patterns: seq<string>, text: string)
    : (r: Option<nat>)
    ensures r.Some? ==> r.value < |patterns| && matches(patterns[r.value], text)
    ensures r.Some? ==> forall j :: 0 <= j < r.value ==> !matches(patterns[j], text)
    ensures r.None? <==> !AnyMatch(matches, patterns, text)
    decreases |patterns|
  {
    if |patterns| == 0 then None
    else if matches(patterns[0], text) then Some(0)
    else
      match FirstIndex(matches, patterns[1..], text)
      case None =>
        assert forall i :: 1 <= i < |patterns| ==> patterns[i] == patterns[1..][i - 1];
        None
      case Some(k) => Some(k + 1)
  }

  /** `for p in patterns: if re.search(p, text): ... break`: the scan stops at the first
      pattern that matches and reports where, or runs off the end. */
  method ScanPatterns(matches: (string, string) -> bool, patterns: seq<string>, text: string)
    returns (r: Option<nat>)
    ensures r == FirstIndex(matches, patterns, text)
  {
    var i := 0;
    while i < |patterns|
      invariant 0 <= i <= |patterns|
      invariant forall j :: 0 <= j < i ==> !matches(patterns[j], text)
    {
      if matches(patterns[i], text) {
        FirstIndexAt(matches, patterns, text, i);
        return Some(i);
      }
      i := i + 1;
    }
    return None;
  }

  /** A pattern that matches after a run of patterns that do not is the first match. */
  lemma {:induction false} FirstIndexAt(matches: (string, string) -> bool, patterns: seq<string>,
                                       text: string, i: nat)
    requires i < |patterns| && matches(patterns[i], text)
    requires forall j :: 0 <= j < i ==> !matches(patterns[j], text)
    ensures FirstIndex(matches, patterns, text) == Some(i)
    decreases i
  {
    if i > 0 {
      FirstIndexAt(matches, patterns[1..], text, i - 1);
    }
  }
}
