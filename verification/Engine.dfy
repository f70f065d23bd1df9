/** The engine: steps schedule a batch, run its arrays, and postprocess it. */
module Engine {
  import opened Requests
  import opened CacheInvariant
  import opened KvMemory
  import opened Growth
  import opened Boundary
  import opened Scheduling
  import opened SchedulerState
  import opened Prefill
  import opened Steps
  import opened Addressing
  import opened ModelInput
  import opened Metadata
  import opened Forward
  import opened BatchForward
  import opened Kernel

  datatype Engine = Engine(sys: Sys, mems: Layers)

  function Rows(s: Sys, ids: seq<nat>): (rs: seq<Req>)
    ensures |rs| == |ids|
    ensures forall k :: 0 <= k < |ids| ==> rs[k] == s.Get(ids[k])
  {
    seq(|ids|, k requires 0 <= k < |ids| => s.Get(ids[k]))
  }

  /** The requests behind rows of the batch. */
  function Picked(ids: seq<nat>, rows: seq<nat>): (r: seq<nat>)
    ensures |r| == |rows|
  {
    seq(|rows|, k requires 0 <= k < |rows| => if rows[k] < |ids| then ids[rows[k]] else 0)
  }

  /** `LLMEngine.step` */
  function Step(net: Net, c: Config, e: Engine): Result<Engine> {
    var b :- Schedule(c, e.sys);
    var input :- Prepared(c, Rows(b.sys, b.seqs), Present(b.numPrefill));
    if |e.mems| != net.layers || input.needLogits.Absent? then Err(AssertionFailed)
    else
      var (mems', ts) :- RunKernel(net, c, input, c.unified, e.mems);
      var sys' :- Postprocess(c, b, Picked(b.seqs, input.needLogits.value), ts);
      Ok(Engine(sys', mems'))
  }

  // ---------------------------------------------------------------- the step, request by request

  /** Every scheduled batch is one that the arrays are made for. */
  lemma ScheduledReady(c: Config, s0: Sys, b: Batch, led: Ledger, led0: Ledger, kv: Memory)
    requires Scheduled(c, s0, b, led, kv) && AtRest(c, s0, led0, kv)
    ensures HoldsAllNew(c, b.sys.reqs, b.seqs)
    ensures Ready(c, RowsOf(b.sys.reqs, b.seqs), b.numPrefill)
  {
    hide AtRest, Consistent, Quiescent, Covered;
    ScheduledHoldsAllNew(c, s0, b, led, led0, kv);
    forall k: nat | k < |b.seqs|
      ensures b.sys.reqs[b.seqs[k]].newToks > 0
    {
      assert MidReq(s0, b.sys, b.seqs, b.seqs[k]);
    }
  }

  /** The arrays of a scheduled batch compute what the batch means, on every attention route; none of the checks
      objects. */
  lemma StepIsBatch(net: Net, c: Config, e: Engine, s0: Sys, b: Batch, led: Ledger, led0: Ledger, kv: Memory)
    requires Scheduled(c, s0, b, led, kv) && AtRest(c, s0, led0, kv) && Schedule(c, e.sys) == Ok(b)
             && |e.mems| == net.layers
    ensures HoldsAllNew(c, b.sys.reqs, b.seqs) && b.numPrefill <= |b.seqs|
    ensures var (mems', ts) := RunBatch(net, c, b, e.mems);
            var post := Postprocess(c, b, NeedLogits(b.sys, b.seqs), ts);
            Step(net, c, e) == if post.Err? then Err(post.error) else Ok(Engine(post.value, mems'))
  {
    hide Scheduled, AtRest, Schedule, Prepared, RunKernel, RunBatch, Postprocess, NeedLogits, Ready, Covered,
         LogitsRows;
    ScheduledReady(c, s0, b, led, led0, kv);
    ReadyBounds(c, RowsOf(b.sys.reqs, b.seqs), b.numPrefill);
    assert Rows(b.sys, b.seqs) == RowsOf(b.sys.reqs, b.seqs);
    ReadyPrepared(c, RowsOf(b.sys.reqs, b.seqs), b.numPrefill);
    KernelIsBatch(net, c, b, b.numPrefill, c.unified, e.mems);
    RowsAgree(b.sys, b.seqs);
    assert Picked(b.seqs, LogitsRows(RowsOf(b.sys.reqs, b.seqs))) == NeedLogits(b.sys, b.seqs);
    ArraysLogits(c, RowsOf(b.sys.reqs, b.seqs), b.numPrefill);
  }

  lemma ReadyBounds(c: Config, rs: seq<Req>, n: nat)
    requires Ready(c, rs, n)
    ensures n <= |rs|
  {
  }

  lemma ArraysLogits(c: Config, rs: seq<Req>, n: nat)
    requires n <= |rs| && Paged(rs)
    ensures Arrays(c, rs, n).needLogits == Present(LogitsRows(rs))
  {
  }
}
