/** `_normalize_drive_model_name`: turns a raw SMART drive model string into
    "<manufacturer> <model>". Two policies exist in the repository: one keeps HGST and WDC
    apart and matches Toshiba ignoring case (afr_parquet_to_quarterly_csv.py), the other
    merges HGST and WDC into "WDC/HGST" (backblaze_drive_stats_data.py and its three verbatim
    copies). */
module Normalizer {
  import opened Wrappers
  import opened Text
  import opened Numerals

  /** `re.match(r'ST\d+', token)`: "ST" and at least one digit at the start. */
  predicate SeagatePrefix(token: string) {
    |token| >= 3 && token[0] == 'S' && token[1] == 'T' && IsDigit(token[2])
  }

  /** `re.match(r'WU[HS]72', token)`. */
  predicate WdcPrefix(token: string) {
    |token| >= 5 && token[0] == 'W' && token[1] == 'U' && (token[2] == 'H' || token[2] == 'S')
    && token[3] == '7' && token[4] == '2'
  }

  /** The part of `str.upper()` that can produce a letter of "TOSHIBA": ASCII lower case,
      dotless i (U+0131) and long s (U+017F). No character upper-cases to several letters
      that occur together in "TOSHIBA", so comparing character by character is exact. */
  function UpperChar(c: char): char {
    if 'a' <= c <= 'z' then ((c as int) - 32) as char
    else if c == '\U{0131}' then 'I'
    else if c == '\U{017F}' then 'S'
    else c
  }

  function Upper(s: string): (r: string)
    ensures |r| == |s|
  {
    if |s| == 0 then "" else [UpperChar(s[0])] + Upper(s[1..])
  }

  /** `token.upper() == "TOSHIBA"`, compared character by character; `UpperIsToshibaMeans`
      shows it is the same test. */
  predicate UpperIsToshiba(token: string) {
    |token| == 7 && forall i :: 0 <= i < 7 ==> UpperChar(token[i]) == "TOSHIBA"[i]
  }

  lemma {:induction false} UpperAt(s: string, i: int)
    requires 0 <= i < |s|
    ensures Upper(s)[i] == UpperChar(s[i])
  {
    if i > 0 {
      UpperAt(s[1..], i - 1);
    }
  }

  lemma {:induction false} UpperIsToshibaMeans(token: string)
    ensures UpperIsToshiba(token) <==> Upper(token) == "TOSHIBA"
  {
    if |token| == 7 {
      forall i | 0 <= i < 7 ensures Upper(token)[i] == UpperChar(token[i]) {
        UpperAt(token, i);
      }
    }
  }

  function TokenCountError(raw: string): PyError {
    ValueError("Drive model name '" + raw + "' did not result in 1 or 2 tokens")
  }

  function NoMfrError(raw: string): PyError {
    ValueError("Cannot determine mfr from model string: " + raw)
  }

  function UnknownMfrError(mfr: string): PyError {
    ValueError("Drive mfr " + mfr + " not recognized")
  }

  /** The manufacturer a lone model token implies: Seagate for `ST\d+`, tried first, then
      `wdc` for `WU[HS]72`. */
  function InferMfr(raw: string, token: string, wdc: string): Result<string, PyError> {
    if SeagatePrefix(token) then Ok(Join(" ", ["Seagate", token]))
    else if WdcPrefix(token) then Ok(Join(" ", [wdc, token]))
    else Err(NoMfrError(raw))
  }

  /** The manufacturers a normalized name can start with under each policy. */
  const SeparateMfrs: set<string> := {"HGST", "Seagate", "Toshiba", "WDC"}
  const MergedMfrs: set<string> := {"Seagate", "Toshiba", "WDC/HGST"}

  /** A successful normalization: exactly two single-space-separated tokens, a manufacturer
      from `mfrs` followed by the last token of the raw string, which is never altered. */
  predicate NormalizedFrom(raw: string, name: string, mfrs: set<string>) {
    var toks := Split(raw);
    (|toks| == 1 || |toks| == 2)
    && |Split(name)| == 2 && Split(name)[0] in mfrs && Split(name)[1] == toks[|toks| - 1]
    && name == Join(" ", Split(name))
  }

  /** HGST and WDC kept apart; Toshiba recognised in any letter case
      (afr_parquet_to_quarterly_csv.py). */
  function NormalizeSeparate(raw: string): (r: Result<string, PyError>)
    ensures r.Ok? ==> NormalizedFrom(raw, r.value, SeparateMfrs)
    ensures |Split(raw)| != 1 && |Split(raw)| != 2 ==> r == Err(TokenCountError(raw))
  {
    var toks := Split(raw);
    if !(1 <= |toks| <= 2) then Err(TokenCountError(raw))
    else if |toks| == 1 then
      InferOk(raw, toks[0], "WDC");
      InferMfr(raw, toks[0], "WDC")
    else if UpperIsToshiba(toks[0]) then
      TwoTokens("Toshiba", toks[1]);
      Ok(Join(" ", ["Toshiba", toks[1]]))
    else if toks[0] !in SeparateMfrs then Err(UnknownMfrError(toks[0]))
    else
      TwoTokens(toks[0], toks[1]);
      assert toks == [toks[0], toks[1]];
      Ok(Join(" ", toks))
  }

  /** The manufacturer aliases of the merged policy. */
  function MergedAlias(mfr: string): string {
    if mfr == "TOSHIBA" then "Toshiba"
    else if mfr == "HGST" || mfr == "WDC" then "WDC/HGST"
    else mfr
  }

  /** HGST and WDC merged into "WDC/HGST"; aliases matched exactly
      (backblaze_drive_stats_data.py and its copies). */
  function NormalizeMerged(raw: string): (r: Result<string, PyError>)
    ensures r.Ok? ==> NormalizedFrom(raw, r.value, MergedMfrs)
    ensures |Split(raw)| != 1 && |Split(raw)| != 2 ==> r == Err(TokenCountError(raw))
  {
    var toks := Split(raw);
    if !(1 <= |toks| <= 2) then Err(TokenCountError(raw))
    else if |toks| == 1 then
      InferOk(raw, toks[0], "WDC/HGST");
      InferMfr(raw, toks[0], "WDC/HGST")
    else
      var mfr := MergedAlias(toks[0]);
      // "WDC" is in the source's accepted set too, but the alias table has already
      // rewritten it, so the accepted manufacturers are exactly `MergedMfrs`.
      if mfr !in (MergedMfrs + {"WDC"}) then Err(UnknownMfrError(mfr))
      else
        TwoTokens(mfr, toks[1]);
        Ok(Join(" ", [mfr, toks[1]]))
  }

  lemma {:induction false} TwoTokens(mfr: string, model: string)
    requires IsToken(mfr) && IsToken(model)
    ensures Split(Join(" ", [mfr, model])) == [mfr, model]
  {
    SplitJoin([mfr, model]);
    assert [mfr, model][1..] == [model];
  }

  lemma {:induction false} InferOk(raw: string, token: string, wdc: string)
    requires IsToken(token) && IsToken(wdc) && Split(raw) == [token]
    ensures InferMfr(raw, token, wdc).Ok? ==>
      NormalizedFrom(raw, InferMfr(raw, token, wdc).value, {"Seagate", wdc})
  {
    TwoTokens("Seagate", token);
    TwoTokens(wdc, token);
  }

  // ---------------------------------------------------------------------------------------
  // properties

  /** The inputs each policy accepts: one token with a Seagate or WDC model prefix, or two
      tokens whose first is a recognised manufacturer spelling. */
  lemma {:induction false} SeparateAccepts(raw: string)
    ensures NormalizeSeparate(raw).Ok? <==>
      (|Split(raw)| == 1 && (SeagatePrefix(Split(raw)[0]) || WdcPrefix(Split(raw)[0])))
      || (|Split(raw)| == 2
          && (UpperIsToshiba(Split(raw)[0]) || Split(raw)[0] in SeparateMfrs))
  {
  }

  lemma {:induction false} MergedAccepts(raw: string)
    ensures NormalizeMerged(raw).Ok? <==>
      (|Split(raw)| == 1 && (SeagatePrefix(Split(raw)[0]) || WdcPrefix(Split(raw)[0])))
      || (|Split(raw)| == 2
          && Split(raw)[0] in {"TOSHIBA", "HGST", "WDC", "Seagate", "Toshiba", "WDC/HGST"})
  {
    var toks := Split(raw);
    if |toks| == 2 {
      MergedAliasAccepts(toks[0]);
    }
  }

  /** The manufacturer spellings the alias table maps into the merged set. */
  lemma {:induction false} MergedAliasAccepts(mfr: string)
    ensures MergedAlias(mfr) in MergedMfrs + {"WDC"}
      <==> mfr in {"TOSHIBA", "HGST", "WDC", "Seagate", "Toshiba", "WDC/HGST"}
  {
  }

  /** A lone token is labelled Seagate when it matches `ST\d+` (even if it also matches the
      WDC pattern), and by the WDC label otherwise. */
  lemma {:induction false} SingleTokenMfr(raw: string)
    requires |Split(raw)| == 1
    ensures SeagatePrefix(Split(raw)[0]) ==>
      NormalizeSeparate(raw) == Ok(Join(" ", ["Seagate", Split(raw)[0]]))
      && NormalizeMerged(raw) == Ok(Join(" ", ["Seagate", Split(raw)[0]]))
    ensures !SeagatePrefix(Split(raw)[0]) && WdcPrefix(Split(raw)[0]) ==>
      NormalizeSeparate(raw) == Ok(Join(" ", ["WDC", Split(raw)[0]]))
      && NormalizeMerged(raw) == Ok(Join(" ", ["WDC/HGST", Split(raw)[0]]))
    ensures !SeagatePrefix(Split(raw)[0]) && !WdcPrefix(Split(raw)[0]) ==>
      NormalizeSeparate(raw) == Err(NoMfrError(raw)) && NormalizeMerged(raw) == Err(NoMfrError(raw))
  {
  }

  /** Normalizing a normalized name changes nothing, under either policy. */
  lemma {:induction false} SeparateIdempotent(raw: string)
    requires NormalizeSeparate(raw).Ok?
    ensures NormalizeSeparate(NormalizeSeparate(raw).value) == NormalizeSeparate(raw)
  {
    var name := NormalizeSeparate(raw).value;
    var toks := Split(name);
    UpperOfMfrs(toks[0]);
  }

  /** Of the accepted manufacturers only "Toshiba" upper-cases to "TOSHIBA". */
  lemma {:induction false} UpperOfMfrs(mfr: string)
    requires mfr in SeparateMfrs
    ensures UpperIsToshiba(mfr) ==> mfr == "Toshiba"
  {
    if UpperIsToshiba(mfr) {
      assert UpperChar(mfr[0]) == 'T';
    }
  }

  lemma {:induction false} MergedIdempotent(raw: string)
    requires NormalizeMerged(raw).Ok?
    ensures NormalizeMerged(NormalizeMerged(raw).value) == NormalizeMerged(raw)
  {
    var name := NormalizeMerged(raw).value;
    var toks := Split(name);
    MergedAliasFixed(toks[0]);
    assert [toks[0], toks[1]] == toks;
  }

  lemma {:induction false} MergedAliasFixed(mfr: string)
    requires mfr in MergedMfrs
    ensures MergedAlias(mfr) == mfr
  {
  }

  /** Under the merged policy the manufacturer is never a bare "WDC" or "HGST". */
  lemma {:induction false} MergedNeverBareWdcOrHgst(raw: string)
    requires NormalizeMerged(raw).Ok?
    ensures Split(NormalizeMerged(raw).value)[0] != "WDC"
    ensures Split(NormalizeMerged(raw).value)[0] != "HGST"
  {
  }

  /** A WDC model lands on the same merged name whether it comes bare, after "WDC" or after
      "HGST"; the model token itself is kept. */
  lemma {:induction false} MergedWdcForms(m: string)
    requires IsToken(m) && WdcPrefix(m)
    ensures NormalizeMerged(m) == Ok(Join(" ", ["WDC/HGST", m]))
    ensures NormalizeMerged(Join(" ", ["WDC", m])) == Ok(Join(" ", ["WDC/HGST", m]))
    ensures NormalizeMerged(Join(" ", ["HGST", m])) == Ok(Join(" ", ["WDC/HGST", m]))
  {
    MergedWdcBare(m);
    MergedWdcNamed("WDC", m);
    MergedWdcNamed("HGST", m);
  }

  lemma {:induction false} MergedWdcBare(m: string)
    requires IsToken(m) && WdcPrefix(m)
    ensures NormalizeMerged(m) == Ok(Join(" ", ["WDC/HGST", m]))
  {
    SplitToken(m, "");
    assert m + "" == m;
    assert !SeagatePrefix(m);
  }

  lemma {:induction false} MergedWdcNamed(mfr: string, m: string)
    requires IsToken(m) && (mfr == "WDC" || mfr == "HGST")
    ensures NormalizeMerged(Join(" ", [mfr, m])) == Ok(Join(" ", ["WDC/HGST", m]))
  {
    TwoTokens(mfr, m);
    assert MergedAlias(mfr) == "WDC/HGST";
  }

  /** `_create_normalized_model_name_series`: every name normalized with the merged policy,
      in order; the first failure aborts the whole series. */
  function NormalizeSeries(names: seq<string>): (r: Result<seq<string>, PyError>)
    ensures r.Ok? ==> (|r.value| == |names|
      && forall i :: 0 <= i < |names| ==> NormalizeMerged(names[i]) == Ok(r.value[i]))
  {
    if |names| == 0 then Ok([])
    else
      match NormalizeMerged(names[0])
      case Err(e) => Err(e)
      case Ok(first) =>
        match NormalizeSeries(names[1..])
        case Err(e) => Err(e)
        case Ok(rest) => Ok([first] + rest)
  }

  /** A failed series reports the error of its first name that does not normalize. */
  lemma {:induction false} SeriesFirstFailure(names: seq<string>) returns (i: nat)
    requires NormalizeSeries(names).Err?
    ensures i < |names| && NormalizeMerged(names[i]) == Err(NormalizeSeries(names).error)
    ensures forall j :: 0 <= j < i ==> NormalizeMerged(names[j]).Ok?
  {
    if NormalizeMerged(names[0]).Err? {
      i := 0;
    } else {
      var k := SeriesFirstFailure(names[1..]);
      i := k + 1;
      forall j | 0 <= j < i ensures NormalizeMerged(names[j]).Ok? {
        if j > 0 { assert names[j] == names[1..][j - 1]; }
      }
    }
  }
}
