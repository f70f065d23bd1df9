/** A lone request that fills the pool: its steps deliver no token, and every one of them is decided by its progress. */
module Refill {
  import opened Arith
  import opened Requests
  import opened Pages
  import opened CacheInvariant
  import opened KvMemory
  import opened Growth
  import opened Boundary
  import opened Scheduling
  import opened SchedulerState
  import opened Prefill
  import opened Steps
  import opened Liveness
  import opened Delivery
  import opened Postprocessing
  import opened Forward
  import opened Engine
  import opened Runs
  import opened CutResume
  import opened Ownership

  // ---------------------------------------------------------------- a step that advances one prefill

  lemma {:induction false} CommitPool(s: Sys, ids: seq<nat>)
    ensures CommitAll(s, ids).pool == s.pool
    decreases |ids|
  {
    if ids != [] {
      CommitPool(s.Put(ids[0], s.pool, Commit(s.Get(ids[0]))), ids[1..]);
    }
  }

  /** The batch is one prefill, which does not reach its last token. */
  ghost predicate OnePart(s0: Sys, b: Batch, x: nat, ctx: nat) {
    && b.seqs == [x] && b.numPrefill == 1 && s0.running == [] && x < |s0.reqs| == |b.sys.reqs|
    && b.sys.reqs[x].Context() == ctx < |s0.reqs[x].tokens|
  }

  /** After such a step the request is the chunk, or runs; nobody else has changed. */
  ghost predicate Advanced(s0: Sys, b: Batch, x: nat, ctx: nat, s: Sys)
    requires x < |s0.reqs| == |b.sys.reqs|
  {
    && |s.reqs| == |s0.reqs| && s.pool == b.sys.pool
    && s.reqs[x] == b.sys.reqs[x].(cached := ctx, newToks := 0)
    && s.reqs[x].tokens == s0.reqs[x].tokens && s.reqs[x].numPrompt == s0.reqs[x].numPrompt
    && (if ctx < s.reqs[x].numPrompt then s.chunked == Some(x) && s.running == []
        else s.chunked.None? && s.running == [x])
  }

  lemma PartEnds(c: Config, s0: Sys, b: Batch, led: Ledger, led0: Ledger, kv: Memory, ts: seq<Token>, s: Sys, x: nat,
                 ctx: nat)
    requires Ended(c, s0, b, led, led0, kv, ts, s) && OnePart(s0, b, x, ctx)
    requires Postprocess(c, b, NeedLogits(b.sys, b.seqs), ts) == Ok(s)
    ensures Advanced(s0, b, x, ctx, s)
  {
    hide Quiescent, Mid, FinalReq, Stops, Promote, Partial, CommitAll, Posted;
    BatchMember(c, s0, b, led, kv, x);
    FinalCases(c, s0, b, led, kv, ts, x);
    assert b.seqs[1..] == [] && NeedLogits(b.sys, b.seqs[1..]) == [];
    assert NeedLogits(b.sys, b.seqs) == [];
    CommitPool(b.sys, b.seqs);
    assert b.seqs[..1] == [x];
    PartQueues(c, s0, b, led, led0, kv, ts, s, x, ctx);
  }

  lemma PartQueues(c: Config, s0: Sys, b: Batch, led: Ledger, led0: Ledger, kv: Memory, ts: seq<Token>, s: Sys, x: nat,
                   ctx: nat)
    requires Ended(c, s0, b, led, led0, kv, ts, s) && OnePart(s0, b, x, ctx)
    ensures |s.reqs| == |s0.reqs| && s.reqs[x] == FinalReq(c, b, ts, x)
    ensures FinalReq(c, b, ts, x).cached == ctx && FinalReq(c, b, ts, x).status == Running ==>
              if ctx < s.reqs[x].numPrompt then s.chunked == Some(x) && s.running == []
              else s.chunked.None? && s.running == [x]
  {
    hide Quiescent, Mid, FinalReq, NeedLogits, Stops;
    BatchSides(c, s0, b, led, kv, x);
    var prefills := b.seqs[..b.numPrefill];
    assert prefills == [x] && [x][1..] == [];
    assert Promoted(s, [x][1..]) == [] && Alive(s, []) == [];
    assert Promoted(s, prefills) == (if IsPromoted(s, x) then [x] else []) + Promoted(s, [x][1..]);
  }

  // ---------------------------------------------------------------- the chunk alone

  /** The chunk holds all the pages in use, nobody runs, and nobody will be admitted beside it. */
  ghost predicate ChunkAlone(c: Config, s: Sys, led: Ledger, kv: Memory, x: nat, n: nat) {
    && AtRest(c, s, led, kv) && s.running == [] && s.chunked == Some(x) && x < |s.reqs| && c.maxBatch > 0
    && n == Min(|s.reqs[x].tokens| - s.reqs[x].cached, c.maxBatch)
    && (s.reqs[x].cached + n < |s.reqs[x].tokens| || s.waiting == [] || Ceil(s.reqs[x].cached + n, c.B) > c.numBlocks)
  }

  lemma ChunkFacts(c: Config, s: Sys, led: Ledger, kv: Memory, x: nat, n: nat)
    requires ChunkAlone(c, s, led, kv, x, n)
    ensures Nearly(c, s, led, kv) && DecodeFits(c, s) && PreemptTail(c, s) == Ok(s) && n > 0
    ensures World(c, s.pool, s.reqs, led) && s.reqs[x].newToks == 0 && s.reqs[x].cached < s.reqs[x].numPrompt
    ensures s.reqs[x].cached + n <= |s.reqs[x].tokens| && s.reqs[x].numPrompt <= |s.reqs[x].tokens|
    ensures |s.reqs[x].table| == Ceil(s.reqs[x].cached, c.B) && |s.pool.free| + |s.reqs[x].table| == c.numBlocks
    ensures NumBlocksToAppend(c, s.reqs[x], n) == Ceil(s.reqs[x].cached + n, c.B) - |s.reqs[x].table|
    ensures s.reqs[x].status == Running
  {
    hide World, KvComplete;
    RestIsSteppable(c, s, led, kv);
    RestWorld(c, s, led, kv);
    assert Placed(s, x) && Progress(s, x) && ReqLimits(c, s.reqs[x]);
    assert Aligned(c, s.pool.pages, s.reqs[x]);
    forall y: nat | y < |s.reqs| && s.reqs[y].status == Running
      ensures s.chunked == Some(y)
    {
      assert Placed(s, y);
    }
    RestFree(c, s, led, kv, Some(x));
    CeilMono(s.reqs[x].cached, s.reqs[x].cached + n, c.B);
  }

  /** The plan of its step. */
  function ChunkStep(c: Config, s: Sys, x: nat, n: nat): StepPlan {
    var blocks := NumBlocksToAppend(c, s.Get(x), n);
    var rest := |s.Get(x).tokens| - s.Get(x).cached;
    StepPlan(if n == 0 || blocks > |s.pool.free| then ChunkPlan(false, 0, 0, false, c.maxBatch, |s.pool.free|)
             else ChunkPlan(true, n, blocks, n == rest, Max(c.maxBatch - n, 0), Max(|s.pool.free| - blocks, 0)),
             map[], [], 0)
  }

  lemma ChunkPlanned(c: Config, s: Sys, led: Ledger, kv: Memory, x: nat, n: nat)
    requires ChunkAlone(c, s, led, kv, x, n)
    ensures PlanStep(c, s) == Ok(ChunkStep(c, s, x, n))
  {
    hide AtRest, MatchWaiting, Rank;
    ChunkFacts(c, s, led, kv, x, n);
    assert SumAppend(c, s.reqs, s.running) == 0;
  }

  /** Its step computes the tokens its budget allows, if their pages are there, and otherwise raises. */
  lemma ChunkSchedule(c: Config, s: Sys, led: Ledger, kv: Memory, x: nat, n: nat) returns (led': Ledger)
    requires ChunkAlone(c, s, led, kv, x, n)
    ensures PreemptTail(c, s) == Ok(s)
    ensures Schedule(c, s).Ok? <==> Ceil(s.reqs[x].cached + n, c.B) <= c.numBlocks
    ensures Schedule(c, s).Ok? ==>
              var b := Schedule(c, s).value;
              && Scheduled(c, s, b, led', kv) && b.seqs == [x] && b.numPrefill == 1
              && ScheduleAppend(c, s, x, n) == Ok(b.sys) && b.sys.Get(x).Context() == s.reqs[x].cached + n
  {
    hide AtRest, Nearly, Scheduled, DecodeFits, PlanStep, MayAppend, EmptyPrefill, NoBypass, ChunkAlone,
         NumBlocksToAppend;
    ChunkFacts(c, s, led, kv, x, n);
    ChunkPlanned(c, s, led, kv, x, n);
    ChunkIs(c, s, led, kv, x, n);
    var p := ChunkStep(c, s, x, n);
    var m;
    led', m := ScheduleFromOk(c, s, led, kv);
    ChunkPrefill(c, s, x, n);
    if Ceil(s.reqs[x].cached + n, c.B) <= c.numBlocks {
      ChunkAppended(c, s, led, kv, x, n);
      var s1 := ScheduleAppend(c, s, x, n).value;
      assert DecodeAll(c, s1, s.running) == Ok(s1);
      assert [x] + [] == [x] && [x] + s.running == [x];
    }
  }

  lemma ChunkAppended(c: Config, s: Sys, led: Ledger, kv: Memory, x: nat, n: nat)
    requires ChunkAlone(c, s, led, kv, x, n) && Ceil(s.reqs[x].cached + n, c.B) <= c.numBlocks
    ensures ScheduleAppend(c, s, x, n).Ok? && |ScheduleAppend(c, s, x, n).value.reqs| == |s.reqs|
    ensures ScheduleAppend(c, s, x, n).value.reqs[x].Context() == s.reqs[x].cached + n
  {
    hide MayAppend, Consistent, AtRest, NumBlocksToAppend;
    ChunkFacts(c, s, led, kv, x, n);
    ConsistentAt(c, s, led, kv);
    var led1 := MayAppendOk(c, s.pool, s.reqs, led, kv, x, n);
  }

  lemma ConsistentAt(c: Config, s: Sys, led: Ledger, kv: Memory)
    requires Nearly(c, s, led, kv)
    ensures Consistent(c, s.pool, s.reqs, led, kv)
  {
    QuiescentIsConsistent(c, s.pool, s.reqs, led, kv);
  }

  lemma ChunkIs(c: Config, s: Sys, led: Ledger, kv: Memory, x: nat, n: nat)
    requires ChunkAlone(c, s, led, kv, x, n)
    ensures s.chunked == Some(x) && s.running == [] && x < |s.reqs| && AtRest(c, s, led, kv)
    ensures var p := ChunkStep(c, s, x, n).chunk;
            && (p.scheduled <==> Ceil(s.reqs[x].cached + n, c.B) <= c.numBlocks)
            && (p.scheduled ==> p.tokens == n)
  {
    hide AtRest;
    ChunkFacts(c, s, led, kv, x, n);
  }

  /** The prefill half is the chunk's append alone. */
  lemma ChunkPrefill(c: Config, s: Sys, x: nat, n: nat)
    ensures var p := ChunkStep(c, s, x, n);
            PrefillStep(c, s, p) ==
              var s1 := AppendChunk(c, s, p.chunk);
              if s1.Err? then Err(s1.error) else Ok((s1.value, []))
  {
    hide AppendChunk;
    var p := ChunkStep(c, s, x, n);
    FrozenEnd(c, s, p.prefixes, [], p.chunk.tokenBudget, p.chunk.freeBudget, {}, s.Live(), []);
    var s1 := AppendChunk(c, s, p.chunk);
    if s1.Ok? {
      CommitEnd(c, s1.value, [], p.chunk.tokenBudget, 0, s.Live(), []);
      FrozenEnd(c, s1.value, p.prefixes, [], 0, 0, {}, 0, []);
    }
    assert Ids([]) == [];
  }

  // ---------------------------------------------------------------- filling the pool

  /** Only this request has pages; it needs more than there are, and it has computed `k` tokens, owning the hashes of
      its pages as far as they do not repeat. Inside its prompt it is the chunk, and behind it it runs. */
  ghost predicate Filling(c: Config, s: Sys, led: Ledger, kv: Memory, x: nat, k: nat) {
    && Nearly(c, s, led, kv) && c.chunked && c.maxBatch > 0 && x < |s.reqs|
    && var r := s.reqs[x];
    && r.cached == k && r.newToks == 0 && k <= Start(c.numBlocks, c.B) < |r.tokens|
    && OwnsLast(c, s.pool, r, Full(c, r))
    && (if k < r.numPrompt then s.chunked == Some(x) && s.running == [] else s.chunked.None? && s.running == [x])
  }

  ghost predicate SameTask(r: Req, r': Req) {
    r'.tokens == r.tokens && r'.numPrompt == r.numPrompt
  }

  lemma AdvancedFills(c: Config, s0: Sys, b: Batch, s: Sys, led: Ledger, kv: Memory, x: nat, ctx: nat)
    requires x < |s0.reqs| == |b.sys.reqs| && Advanced(s0, b, x, ctx, s) && Nearly(c, s, led, kv)
    requires c.chunked && c.maxBatch > 0 && ctx <= Start(c.numBlocks, c.B) < |s0.reqs[x].tokens|
    requires OwnsLast(c, b.sys.pool, b.sys.reqs[x], ctx / c.B)
    ensures Filling(c, s, led, kv, x, ctx) && SameTask(s0.Get(x), s.Get(x))
  {
    hide Nearly, OwnsLast;
    OwnsFrame(c, b.sys.pool, b.sys.reqs[x], s.reqs[x], ctx / c.B);
  }

  /** Such a batch, with the pages it leaves. */
  ghost predicate PartScheduled(c: Config, s0: Sys, b: Batch, x: nat, ctx: nat) {
    && c.chunked && c.maxBatch > 0 && x < |s0.reqs| == |b.sys.reqs| && OnePart(s0, b, x, ctx)
    && OwnsLast(c, b.sys.pool, b.sys.reqs[x], ctx / c.B) && ctx <= Start(c.numBlocks, c.B) < |s0.reqs[x].tokens|
  }

  /** A step whose batch is one part of one request leads from owned pages to owned pages. */
  lemma PartStep(net: Net, c: Config, e: Engine, b: Batch, led: Ledger, kv: Memory, x: nat, ctx: nat)
    returns (led': Ledger, kv': Memory)
    requires Steppable(c, e.sys, led, kv) && Holds(net, e.mems, kv)
    requires Schedule(c, e.sys) == Ok(b) && PartScheduled(c, AfterPreemption(c, e.sys), b, x, ctx)
    ensures Step(net, c, e).Ok?
    ensures var e' := Step(net, c, e).value;
            && Filling(c, e'.sys, led', kv', x, ctx) && Holds(net, e'.mems, kv')
            && SameTask(AfterPreemption(c, e.sys).Get(x), e'.sys.Get(x))
    ensures LedgerExtends(led, led')
  {
    hide Nearly, AtRest, Steppable, Holds, Step, Schedule, Ended, NeedLogits, Postprocess, OwnsLast, TokenStep,
         Quiescent,
         Cut, DecodeFits, Filling, SameTask, Advanced, PreemptTail;
    var ts;
    led', kv', ts := StepOk(net, c, e, led, kv);
    var s0, s := AfterPreemption(c, e.sys), Step(net, c, e).value.sys;
    PartEnds(c, s0, b, led', led, kv, ts, s, x, ctx);
    AdvancedFills(c, s0, b, s, led', kv', x, ctx);
  }

  lemma FillChunkAlone(c: Config, s: Sys, led: Ledger, kv: Memory, x: nat, k: nat)
    requires Filling(c, s, led, kv, x, k) && k < s.reqs[x].numPrompt
    ensures Steppable(c, s, led, kv) && World(c, s.pool, s.reqs, led)
    ensures var n := Min(|s.reqs[x].tokens| - k, c.maxBatch);
            && ChunkAlone(c, s, led, kv, x, n)
            && (Ceil(k + n, c.B) <= c.numBlocks <==> k + c.maxBatch <= Start(c.numBlocks, c.B))
            && (k + c.maxBatch <= Start(c.numBlocks, c.B) ==> n == c.maxBatch)
  {
    hide Quiescent, OwnsLast;
    var n := Min(|s.reqs[x].tokens| - k, c.maxBatch);
    RestWorld(c, s, led, kv);
    CeilBounds(k + n, c.B);
    if Ceil(k + n, c.B) <= c.numBlocks {
      StartMono(Ceil(k + n, c.B), c.numBlocks, c.B);
    } else {
      StartMono(c.numBlocks, Ceil(k + n, c.B) - 1, c.B);
    }
  }

  lemma ChunkTask(c: Config, s: Sys, b: Batch, led: Ledger, kv: Memory, x: nat)
    requires Scheduled(c, s, b, led, kv) && x < |s.reqs| == |b.sys.reqs| && x in b.seqs
    ensures SameTask(s.reqs[x], b.sys.reqs[x])
  {
    hide Quiescent;
    BatchMember(c, s, b, led, kv, x);
  }

  lemma FillScheduled(c: Config, s: Sys, led: Ledger, kv: Memory, x: nat, k: nat)
    requires Filling(c, s, led, kv, x, k) && k < s.Get(x).numPrompt
    ensures Steppable(c, s, led, kv) && PreemptTail(c, s) == Ok(s)
    ensures Schedule(c, s).Ok? <==> k + c.maxBatch <= Start(c.numBlocks, c.B)
    ensures Schedule(c, s).Ok? ==>
              && PartScheduled(c, s, Schedule(c, s).value, x, k + c.maxBatch)
              && SameTask(s.reqs[x], Schedule(c, s).value.sys.reqs[x])
  {
    hide Schedule, ScheduleFrom, PreemptTail, OwnsLast, ScheduleAppend, ChunkAlone, Nearly, Steppable, World, Scheduled,
         Start, SameTask;
    var n := Min(|s.reqs[x].tokens| - k, c.maxBatch);
    FillChunkAlone(c, s, led, kv, x, k);
    var led1 := ChunkSchedule(c, s, led, kv, x, n);
    if Schedule(c, s).Ok? {
      AppendOwns(c, s, led, x, n);
      ChunkTask(c, s, Schedule(c, s).value, led1, kv, x);
    }
  }

  /** Inside its prompt it takes the whole budget, or the step raises because its pages are not there. */
  lemma FillChunk(net: Net, c: Config, e: Engine, led: Ledger, kv: Memory, x: nat, k: nat)
    returns (led': Ledger, kv': Memory)
    requires Filling(c, e.sys, led, kv, x, k) && k < e.sys.Get(x).numPrompt && Holds(net, e.mems, kv)
    ensures Step(net, c, e).Ok? <==> k + c.maxBatch <= Start(c.numBlocks, c.B)
    ensures Step(net, c, e).Ok? ==>
              var e' := Step(net, c, e).value;
              && Filling(c, e'.sys, led', kv', x, k + c.maxBatch) && Holds(net, e'.mems, kv')
              && SameTask(e.sys.Get(x), e'.sys.Get(x))
    ensures LedgerExtends(led, led')
  {
    hide Holds, Step, Schedule, ScheduleFrom, PreemptTail, Steppable, PartScheduled, Filling, SameTask, Start;
    led', kv' := led, kv;
    FillScheduled(c, e.sys, led, kv, x, k);
    if Schedule(c, e.sys).Ok? {
      led', kv' := PartStep(net, c, e, Schedule(c, e.sys).value, led, kv, x, k + c.maxBatch);
    } else {
      var led2, kv2, ts := StepOk(net, c, e, led, kv);
    }
  }

  /** Behind its prompt but short of the whole pool it fits, and the step fails its assertion. */
  lemma FillStuck(net: Net, c: Config, e: Engine, led: Ledger, kv: Memory, x: nat, k: nat)
    requires Filling(c, e.sys, led, kv, x, k) && e.sys.Get(x).numPrompt <= k < Start(c.numBlocks, c.B)
    ensures Step(net, c, e) == Err(AssertionFailed)
  {
    hide Quiescent, OwnsLast, Step;
    var s := e.sys;
    forall y: nat | y < |s.reqs| && s.reqs[y].status == Running
      ensures Some(x) == Some(y)
    {
      assert Placed(s, y);
    }
    RestFree(c, s, led, kv, Some(x));
    assert s.running[1..] == [];
    assert SumAppend(c, s.reqs, s.running) == NumBlocksToAppend(c, s.reqs[x], 1) + SumAppend(c, s.reqs, []);
    CeilMono(k + 1, Start(c.numBlocks, c.B), c.B);
    CeilSplit(c.numBlocks, 0, c.B);
    CeilBounds(0, c.B);
    UnsafeTick(net, c, e, led, kv);
  }
}
