/** etl_pipeline.py: the module-level state the ETL scripts print their progress banners
    from: the list of stage descriptions and the 1-based number of the next stage. */
module EtlPipeline {
  import opened Wrappers
  import opened Numerals

  /** `_pipeline_state` as a value; both entries are `None` until `create_pipeline`. */
  datatype PipelineState = PipelineState(stages: Option<seq<string>>, currStageIdx: Option<int>)

  const Initial: PipelineState := PipelineState(None, None)

  /** `f"{i:2}"` for any integer: right-aligned in two characters, a minus sign in front of a
      negative number. */
  function Format2(i: int): string {
    if i >= 0 then PadLeft2(i) else "-" + Decimal(-i)
  }

  /** The banner of stage `idx` of `n`. */
  function Banner(idx: int, n: nat, desc: string): string {
    "\nETL pipeline stage " + Format2(idx) + " of " + PadLeft2(n) + ": " + desc
  }

  /** `create_pipeline`: whether the call warns (a repeat call), and the state after it. */
  function Create(st: PipelineState, descs: seq<string>): (bool, PipelineState) {
    (st.stages.Some?, PipelineState(Some(descs), Some(1)))
  }

  /** `next_stage_banner`: the banner or the exception, and the state after it. Formatting
      `None` or taking `len(None)` raises TypeError; `stages[idx - 1]` takes Python's
      negative indexes from the end and raises IndexError outside `-n .. n - 1`. The index
      is only incremented once the banner is built. */
  function Next(st: PipelineState): (Result<string, PyError>, PipelineState) {
    if st.currStageIdx.None? || st.stages.None? then (Err(TypeError), st)
    else
      var idx := st.currStageIdx.value;
      var stages := st.stages.value;
      var j := idx - 1;
      if j < -|stages| || j >= |stages| then (Err(IndexError), st)
      else
        var desc := if j < 0 then stages[j + |stages|] else stages[j];
        (Ok(Banner(idx, |stages|, desc)), PipelineState(st.stages, Some(idx + 1)))
  }

  /** `k` calls of `next_stage_banner` in a row: what each returned or raised, and the state
      after them. A call that raises leaves the state as it was. */
  function Run(st: PipelineState, k: nat): (seq<Result<string, PyError>>, PipelineState)
    decreases k
  {
    if k == 0 then ([], st)
    else
      var prev := Run(st, k - 1);
      var step := Next(prev.1);
      (prev.0 + [step.0], step.1)
  }

  /** The banners of the first `k` stages. */
  function Banners(descs: seq<string>, k: nat): (r: seq<Result<string, PyError>>)
    requires k <= |descs|
    ensures |r| == k
    ensures forall j :: 0 <= j < k ==> r[j] == Ok(Banner(j + 1, |descs|, descs[j]))
    decreases k
  {
    if k == 0 then [] else Banners(descs, k - 1) + [Ok(Banner(k, |descs|, descs[k - 1]))]
  }

  /** After `create_pipeline(descs)`, whatever the state before, the first `k <= n` calls
      return the banners of stages 1 to `k` in order, leave the descriptions as they are and
      leave the index at `k + 1`. */
  lemma {:induction false} BannersAfterCreate(st: PipelineState, descs: seq<string>, k: nat)
    requires k <= |descs|
    ensures Run(Create(st, descs).1, k) == (Banners(descs, k), PipelineState(Some(descs), Some(k + 1)))
    decreases k
  {
    if k > 0 {
      BannersAfterCreate(st, descs, k - 1);
      NextAt(descs, k);
    }
  }

  /** With the index at stage `k`, a call returns that stage's banner and moves on by one. */
  lemma {:induction false} NextAt(descs: seq<string>, k: nat)
    requires 1 <= k <= |descs|
    ensures Next(PipelineState(Some(descs), Some(k)))
      == (Ok(Banner(k, |descs|, descs[k - 1])), PipelineState(Some(descs), Some(k + 1)))
  {
  }

  /** Call `n + 1` raises IndexError and changes nothing, and so does every call after it. */
  lemma {:induction false} PastLastStage(st: PipelineState, descs: seq<string>, extra: nat)
    ensures Run(Create(st, descs).1, |descs| + extra)
      == (Banners(descs, |descs|) + Raised(IndexError, extra), PipelineState(Some(descs), Some(|descs| + 1)))
  {
    BannersAfterCreate(st, descs, |descs|);
    PastEnd(Create(st, descs).1, descs, extra, Banners(descs, |descs|), PipelineState(Some(descs), Some(|descs| + 1)));
  }

  /** Once `n` calls have left the index past the last stage, every later call raises
      IndexError and changes nothing. */
  lemma {:induction false} PastEnd(st: PipelineState, descs: seq<string>, extra: nat,
                                   out: seq<Result<string, PyError>>, done: PipelineState)
    requires done == PipelineState(Some(descs), Some(|descs| + 1)) && Run(st, |descs|) == (out, done)
    ensures Run(st, |descs| + extra) == (out + Raised(IndexError, extra), done)
  {
    NextPastEnd(descs, done);
    Stuck(st, |descs|, extra, out, done, IndexError);
  }

  /** With the index past the last stage, a call raises IndexError. */
  lemma {:induction false} NextPastEnd(descs: seq<string>, done: PipelineState)
    requires done == PipelineState(Some(descs), Some(|descs| + 1))
    ensures Next(done) == (Err(IndexError), done)
  {
  }

  /** Once a call raises without changing the state, every later call raises the same. */
  lemma {:induction false} Stuck(st: PipelineState, k: nat, extra: nat, out: seq<Result<string, PyError>>,
                                 s: PipelineState, e: PyError)
    requires Run(st, k) == (out, s) && Next(s) == (Err(e), s)
    ensures Run(st, k + extra) == (out + Raised(e, extra), s)
    decreases extra
  {
    if extra > 0 {
      Stuck(st, k, extra - 1, out, s, e);
      assert Raised(e, extra) == Raised(e, extra - 1) + [Err(e)];
      assert out + Raised(e, extra) == out + Raised(e, extra - 1) + [Err(e)];
    } else {
      assert out + Raised(e, 0) == out;
    }
  }

  /** `k` raised errors. */
  function Raised(e: PyError, k: nat): (r: seq<Result<string, PyError>>)
    ensures |r| == k && forall j :: 0 <= j < k ==> r[j] == Err(e)
  {
    seq(k, _ => Err(e))
  }

  /** Before `create_pipeline`, every call raises TypeError and changes nothing. */
  lemma {:induction false} BeforeCreate(k: nat)
    ensures Run(Initial, k) == (Raised(TypeError, k), Initial)
  {
    assert Next(Initial) == (Err(TypeError), Initial);
    Stuck(Initial, 0, k, [], Initial, TypeError);
    assert [] + Raised(TypeError, k) == Raised(TypeError, k);
  }

  /** A repeat `create_pipeline` warns, and the state after it is the same as after a first
      call: the old stages and index are gone. */
  lemma {:induction false} RepeatCreate(st: PipelineState, first: seq<string>, descs: seq<string>, k: nat)
    ensures Create(Run(Create(st, first).1, k).1, descs) == (true, Create(Initial, descs).1)
    ensures !Create(Initial, descs).0
    decreases k
  {
    if k > 0 {
      RepeatCreate(st, first, descs, k - 1);
    }
  }

  /** `_pipeline_state`, updated in place by the two functions. */
  class Pipeline {
    var stages: Option<seq<string>>
    var currStageIdx: Option<int>

    function State(): PipelineState
      reads this
    {
      PipelineState(stages, currStageIdx)
    }

    /** Module import: both entries `None`. */
    constructor()
      ensures State() == Initial
    {
      stages := None;
      currStageIdx := None;
    }

    /** `create_pipeline`: `warned` is whether the WARN line is printed; the descriptions
        are appended one by one to a new list. */
    method CreatePipeline(descs: seq<string>) returns (warned: bool)
      modifies this
      ensures (warned, State()) == Create(old(State()), descs)
    {
      warned := stages.Some?;
      var list: seq<string> := [];
      stages := Some(list);
      for i := 0 to |descs|
        invariant stages == Some(descs[..i])
      {
        stages := Some(stages.value + [descs[i]]);
        assert descs[..i + 1] == descs[..i] + [descs[i]];
      }
      assert descs[..|descs|] == descs;
      currStageIdx := Some(1);
    }

    /** `next_stage_banner`. */
    method NextStageBanner() returns (r: Result<string, PyError>)
      modifies this
      ensures (r, State()) == Next(old(State()))
    {
      ghost var st := State();
      if currStageIdx.None? || stages.None? {
        assert Next(st) == (Err(TypeError), st);
        return Err(TypeError);
      }
      var idx := currStageIdx.value;
      var list := stages.value;
      var j := idx - 1;
      if j < -|list| || j >= |list| {
        assert Next(st) == (Err(IndexError), st);
        return Err(IndexError);
      }
      var desc := if j < 0 then list[j + |list|] else list[j];
      assert Next(st) == (Ok(Banner(idx, |list|, desc)), PipelineState(stages, Some(idx + 1)));
      r := Ok(Banner(idx, |list|, desc));
      currStageIdx := Some(idx + 1);
    }
  }
}
