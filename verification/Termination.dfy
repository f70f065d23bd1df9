/** `generate` ends: a measure that every step decreases, although preemption throws work away. */
module Termination {
  import opened Arith
  import opened Requests
  import opened CacheInvariant
  import opened KvMemory
  import opened Growth
  import opened Boundary
  import opened Scheduling
  import opened SchedulerState
  import opened Prefill
  import opened Steps
  import opened Liveness
  import opened Delivery
  import opened Postprocessing
  import opened Forward
  import opened Engine
  import opened Runs

  /** Tokens a request may still be given. */
  function Left(r: Req): nat {
    if r.status == Finished then 0 else Max(r.maxTokens - r.Completions(), 0)
  }

  function Remaining(reqs: seq<Req>): nat {
    if reqs == [] then 0 else Remaining(reqs[..|reqs| - 1]) + Left(reqs[|reqs| - 1])
  }

  /** Steps that may pass before the next token: none while somebody runs, the rest of the chunk, or a whole prompt. */
  function Phase(c: Config, s: Sys): nat {
    if s.chunked.Some? then 1 + Max(|s.Get(s.chunked.value).tokens| - s.Get(s.chunked.value).cached, 0)
    else if s.running != [] then 0
    else c.maxLen + 1
  }

  /** Lexicographic: tokens left first, then the phase, which stays below `maxLen + 2`. */
  function Measure(c: Config, s: Sys): nat {
    Start(Remaining(s.reqs), c.maxLen + 2) + Phase(c, s)
  }

  // ---------------------------------------------------------------- tokens left

  ghost predicate NoMore(r: Req, r': Req) {
    Left(r') <= Left(r)
  }

  lemma {:induction false} RemainingMono(reqs: seq<Req>, reqs': seq<Req>)
    requires |reqs'| == |reqs| && forall id: nat :: id < |reqs| ==> NoMore(reqs[id], reqs'[id])
    ensures Remaining(reqs') <= Remaining(reqs)
  {
    if reqs != [] {
      RemainingMono(reqs[..|reqs| - 1], reqs'[..|reqs| - 1]);
      assert NoMore(reqs[|reqs| - 1], reqs'[|reqs| - 1]);
    }
  }

  lemma {:induction false} RemainingStrict(reqs: seq<Req>, reqs': seq<Req>, x: nat)
    requires |reqs'| == |reqs| && forall id: nat :: id < |reqs| ==> NoMore(reqs[id], reqs'[id])
    requires x < |reqs| && Left(reqs'[x]) < Left(reqs[x])
    ensures Remaining(reqs') < Remaining(reqs)
  {
    var n := |reqs| - 1;
    if x < n {
      RemainingStrict(reqs[..n], reqs'[..n], x);
      assert NoMore(reqs[n], reqs'[n]);
    } else {
      RemainingMono(reqs[..n], reqs'[..n]);
    }
  }

  lemma TokenStepLeft(net: Net, c: Config, r: Req, r': Req)
    requires TokenStep(net, c, r, r') && (r.status != Finished ==> r.Completions() < r.maxTokens)
    ensures NoMore(r, r')
    ensures r'.tokens != r.tokens ==> Left(r') < Left(r)
  {
    hide NextToken, Stops;
  }

  // ---------------------------------------------------------------- a step that delivers nothing

  lemma SilentIndex(c: Config, s0: Sys, b: Batch, led: Ledger, kv: Memory, k: nat)
    requires Scheduled(c, s0, b, led, kv) && NeedLogits(b.sys, b.seqs) == [] && k < |b.seqs|
    ensures b.seqs[k] < |b.sys.reqs| && !Complete(b.sys, b.seqs[k]) && k == b.numPrefill - 1
  {
    hide NeedLogits, Mid;
    DeliveriesReady(c, s0, b, led, kv);
    BatchMember(c, s0, b, led, kv, b.seqs[k]);
    assert b.seqs[k] in b.seqs;
  }

  /** A batch in which nobody reaches its last token is one cut prefill, and nobody was running. */
  lemma SilentBatch(c: Config, s0: Sys, b: Batch, led: Ledger, kv: Memory)
    requires Scheduled(c, s0, b, led, kv) && NeedLogits(b.sys, b.seqs) == []
    ensures s0.running == [] && |b.seqs| == 1 && b.numPrefill == 1
    ensures b.seqs[0] < |b.sys.reqs| && !Complete(b.sys, b.seqs[0])
    ensures s0.chunked.Some? ==> b.seqs[0] == s0.chunked.value
  {
    hide NeedLogits, Mid, Complete;
    SilentIndex(c, s0, b, led, kv, 0);
    SilentIndex(c, s0, b, led, kv, |b.seqs| - 1);
  }

  /** After such a step the cut prefill is the chunk, or waits in the running queue for its last token. */
  lemma SilentEnd(c: Config, s0: Sys, b: Batch, led: Ledger, led0: Ledger, kv: Memory, ts: seq<Token>, s: Sys)
    requires Ended(c, s0, b, led, led0, kv, ts, s) && NeedLogits(b.sys, b.seqs) == []
    ensures var id := b.seqs[0];
            && id < |s.reqs| == |s0.reqs|
            && s.reqs[id].tokens == s0.reqs[id].tokens
            && (if s.chunked.Some? then s.chunked == Some(id)
                && s0.reqs[id].cached < s.reqs[id].cached < |s.reqs[id].tokens|
                else s.running != [])
            && (b.sys.reqs[id].Context() < s0.reqs[id].numPrompt ==> s.chunked == Some(id))
  {
    hide NeedLogits, Quiescent, FinalReq, Stops, Consistent;
    SilentBatch(c, s0, b, led, kv);
    var id := b.seqs[0];
    BatchMember(c, s0, b, led, kv, id);
    FinalCases(c, s0, b, led, kv, ts, id);
    assert MidReq(s0, b.sys, b.seqs, id);
    assert b.seqs[..b.numPrefill] == [id];
    assert s.reqs[id] == FinalReq(c, b, ts, id);
    if s.chunked.None? {
      assert id in s.running;
    }
  }

  lemma SilentPhase(c: Config, e: Sys, s0: Sys, b: Batch, led: Ledger, led0: Ledger, kv: Memory, ts: seq<Token>, s: Sys)
    requires Ended(c, s0, b, led, led0, kv, ts, s) && NeedLogits(b.sys, b.seqs) == []
    requires s0.chunked == e.chunked && (e.chunked.Some? ==> s0.Get(e.chunked.value) == e.Get(e.chunked.value))
    requires e.chunked.None? && e.running != [] ==> s0.running != []
    ensures Phase(c, s) < Phase(c, e)
  {
    hide NeedLogits, Quiescent, Posted, Mid;
    SilentBatch(c, s0, b, led, kv);
    SilentEnd(c, s0, b, led, led0, kv, ts, s);
    var id := b.seqs[0];
    BatchMember(c, s0, b, led, kv, id);
    assert Placed(s0, id) && ReqLimits(c, s0.reqs[id]);
  }

  // ---------------------------------------------------------------- every step decreases the measure

  lemma PhaseBound(c: Config, s: Sys, led: Ledger, kv: Memory)
    requires Nearly(c, s, led, kv)
    ensures Phase(c, s) <= c.maxLen + 1
  {
    hide Quiescent;
    if s.chunked.Some? {
      var id := s.chunked.value;
      assert Placed(s, id) && ReqLimits(c, s.reqs[id]);
    }
  }

  lemma Lexicographic(r: nat, r': nat, w: pos, p: nat, p': nat)
    requires (r' < r && p' < w) || (r' <= r && p' < p)
    ensures Start(r', w) + p' < Start(r, w) + p
  {
    if r' < r {
      StartMono(r' + 1, r, w);
    }
  }

  /** A request that was given a token has one less to come. */
  lemma LoudRequest(c: Config, s0: Sys, b: Batch, led: Ledger, led0: Ledger, kv: Memory, ts: seq<Token>, s: Sys)
    requires Ended(c, s0, b, led, led0, kv, ts, s) && NeedLogits(b.sys, b.seqs) != []
    ensures var id := NeedLogits(b.sys, b.seqs)[0];
            id < |s.reqs| == |s0.reqs| && s.reqs[id].tokens != s0.reqs[id].tokens
  {
    hide Quiescent, FinalReq, NeedLogits, Mid;
    var id := NeedLogits(b.sys, b.seqs)[0];
    DeliveriesReady(c, s0, b, led, kv);
    assert id in NeedLogits(b.sys, b.seqs);
    BatchMember(c, s0, b, led, kv, id);
    FinalCases(c, s0, b, led, kv, ts, id);
    assert s.reqs[id] == FinalReq(c, b, ts, id);
    assert |WithToken(b.sys.reqs[id], TokenFor(b, ts, id)).tokens| == |s0.reqs[id].tokens| + 1;
  }

  lemma RemainingDrops(net: Net, c: Config, e: Engine, e': Engine, led: Ledger, kv: Memory)
    requires Nearly(c, e.sys, led, kv) && |e'.sys.reqs| == |e.sys.reqs|
    requires forall id: nat {:trigger e'.sys.reqs[id]} ::
               id < |e.sys.reqs| ==> TokenStep(net, c, e.sys.reqs[id], e'.sys.reqs[id])
    ensures Remaining(e'.sys.reqs) <= Remaining(e.sys.reqs)
    ensures forall id: nat ::
              id < |e.sys.reqs| && e'.sys.reqs[id].tokens != e.sys.reqs[id].tokens
              ==> Remaining(e'.sys.reqs) < Remaining(e.sys.reqs)
  {
    hide Nearly, TokenStep;
    RestLimits(c, e.sys, led, kv);
    forall id: nat | id < |e.sys.reqs|
      ensures NoMore(e.sys.reqs[id], e'.sys.reqs[id])
      ensures e'.sys.reqs[id].tokens != e.sys.reqs[id].tokens ==> Left(e'.sys.reqs[id]) < Left(e.sys.reqs[id])
    {
      assert ReqLimits(c, e.sys.reqs[id]);
      assert TokenStep(net, c, e.sys.reqs[id], e'.sys.reqs[id]);
      TokenStepLeft(net, c, e.sys.reqs[id], e'.sys.reqs[id]);
    }
    RemainingMono(e.sys.reqs, e'.sys.reqs);
    forall id: nat | id < |e.sys.reqs| && e'.sys.reqs[id].tokens != e.sys.reqs[id].tokens
      ensures Remaining(e'.sys.reqs) < Remaining(e.sys.reqs)
    {
      RemainingStrict(e.sys.reqs, e'.sys.reqs, id);
    }
  }

  /** A step that delivers a token leaves fewer to come. */
  lemma LoudDrops(net: Net, c: Config, e: Engine, e': Engine, s0: Sys, b: Batch, led: Ledger, led0: Ledger, kv: Memory,
                  ts: seq<Token>)
    requires Nearly(c, e.sys, led0, kv) && Ended(c, s0, b, led, led0, kv, ts, e'.sys)
             && SameRequests(e.sys.reqs, s0.reqs)
    requires forall id: nat {:trigger e'.sys.reqs[id]} ::
               id < |e.sys.reqs| ==> TokenStep(net, c, e.sys.reqs[id], e'.sys.reqs[id])
    ensures |e'.sys.reqs| == |e.sys.reqs| && Remaining(e'.sys.reqs) <= Remaining(e.sys.reqs)
    ensures NeedLogits(b.sys, b.seqs) != [] ==> Remaining(e'.sys.reqs) < Remaining(e.sys.reqs)
  {
    hide Nearly, Ended, NeedLogits, TokenStep, Remaining;
    EndedLength(c, s0, b, led, led0, kv, ts, e'.sys);
    RemainingDrops(net, c, e, e', led0, kv);
    if NeedLogits(b.sys, b.seqs) != [] {
      LoudRequest(c, s0, b, led, led0, kv, ts, e'.sys);
      var id := NeedLogits(b.sys, b.seqs)[0];
      assert SameRequest(e.sys.reqs[id], s0.reqs[id]);
    }
  }

  lemma EndedLength(c: Config, s0: Sys, b: Batch, led: Ledger, led0: Ledger, kv: Memory, ts: seq<Token>, s: Sys)
    requires Ended(c, s0, b, led, led0, kv, ts, s)
    ensures |s.reqs| == |s0.reqs|
  {
    hide Quiescent, Consistent, FinalReq;
  }

  /** Preemption does not throw out everybody while there is no chunk. */
  predicate Keeps(c: Config, s: Sys) {
    s.chunked.None? && s.running != [] ==> AfterPreemption(c, s).running != []
  }

  /** In any configuration: a step that succeeds, and whose preemption did not throw out everybody, strictly decreases
      the measure, cut requests or not. */
  lemma StepDecreases(net: Net, c: Config, e: Engine, led: Ledger, kv: Memory)
    requires Nearly(c, e.sys, led, kv) && Holds(net, e.mems, kv) && Step(net, c, e).Ok? && Keeps(c, e.sys)
    ensures Measure(c, Step(net, c, e).value.sys) < Measure(c, e.sys)
  {
    hide Postprocess, Nearly, AtRest, Holds, Step, Schedule, Ended, Phase, NeedLogits, TokenStep, Cut, DecodeFits;
    if !SafeTick(c, e.sys) {
      UnsafeTick(net, c, e, led, kv);
    }
    var led', kv', ts := StepOk(net, c, e, led, kv);
    var e' := Step(net, c, e).value;
    var b := Schedule(c, e.sys).value;
    var s0 := AfterPreemption(c, e.sys);
    PreemptionKeepsRequests(c, e.sys, led, kv);
    LoudDrops(net, c, e, e', s0, b, led', led, kv, ts);
    PhaseBound(c, e'.sys, led', kv');
    if NeedLogits(b.sys, b.seqs) == [] {
      SilentPhase(c, e.sys, s0, b, led', led, kv, ts, e'.sys);
    }
    Lexicographic(Remaining(e.sys.reqs), Remaining(e'.sys.reqs), c.maxLen + 2, Phase(c, e.sys), Phase(c, e'.sys));
  }

  /** With an ample pool every safe step of an unfinished engine succeeds and strictly decreases the measure. */
  lemma AmpleDecreases(net: Net, c: Config, e: Engine, led: Ledger, kv: Memory)
    requires Nearly(c, e.sys, led, kv) && Holds(net, e.mems, kv) && Ample(c) && !e.sys.IsFinished()
             && SafeTick(c, e.sys)
    ensures Step(net, c, e).Ok? && Measure(c, Step(net, c, e).value.sys) < Measure(c, e.sys)
  {
    hide Postprocess, Nearly, AtRest, Holds, Step, Schedule, Ended, Measure, DecodeFits, Cut, TokenStep;
    var led0 := NoDeadlock(c, e.sys, led, kv);
    var led', kv', ts := StepOk(net, c, e, led, kv);
    if e.sys.chunked.None? && e.sys.running != [] {
      FirstRunningStays(c, e.sys, led, kv);
    }
    StepDecreases(net, c, e, led, kv);
  }

  // ---------------------------------------------------------------- in any configuration

  /** No prefill of the batch that already has completions is cut short of its last token. */
  predicate NoCutResume(b: Batch)
    requires b.numPrefill <= |b.seqs|
  {
    forall k :: 0 <= k < b.numPrefill ==>
      var r := b.sys.Get(b.seqs[k]);
      r.Completions() > 0 ==> r.Context() == |r.tokens|
  }

  /** The step from this state cuts no resumed request. */
  ghost predicate UncutStep(c: Config, s: Sys) {
    var b := Schedule(c, s);
    b.Ok? && b.value.numPrefill <= |b.value.seqs| ==> NoCutResume(b.value)
  }

  lemma NoCutIsSafe(b: Batch)
    requires b.numPrefill <= |b.seqs| && NoCutResume(b)
    requires forall k :: 0 <= k < b.numPrefill ==> b.sys.Get(b.seqs[k]).numPrompt <= |b.sys.Get(b.seqs[k]).tokens|
    ensures ChunkSafe(b)
  {
    forall k | 0 <= k < b.numPrefill
      ensures var r := b.sys.Get(b.seqs[k]); r.Context() < r.numPrompt || r.Context() + 1 >= |r.tokens|
    {
      var r := b.sys.Get(b.seqs[k]);
      assert r.Completions() > 0 ==> r.Context() == |r.tokens|;
    }
  }

  /** What is left of the chunk, or a whole request if there is none. */
  function ChunkLeft(c: Config, s: Sys): nat {
    if s.chunked.Some? then Max(|s.Get(s.chunked.value).tokens| - s.Get(s.chunked.value).cached, 0) else c.maxLen
  }

  function UncutMeasure(c: Config, s: Sys): nat {
    Start(Remaining(s.reqs), c.maxLen + 1) + ChunkLeft(c, s)
  }

  lemma UncutSilent(c: Config, e: Sys, s0: Sys, b: Batch, led: Ledger, led0: Ledger, kv: Memory, ts: seq<Token>, s: Sys)
    requires Ended(c, s0, b, led, led0, kv, ts, s) && NeedLogits(b.sys, b.seqs) == []
    requires b.numPrefill <= |b.seqs| && NoCutResume(b)
    requires s0.chunked == e.chunked && (e.chunked.Some? ==> s0.Get(e.chunked.value) == e.Get(e.chunked.value))
    ensures ChunkLeft(c, s) < ChunkLeft(c, e)
  {
    hide NeedLogits, Quiescent, Posted, Mid;
    SilentBatch(c, s0, b, led, kv);
    SilentEnd(c, s0, b, led, led0, kv, ts, s);
    var id := b.seqs[0];
    BatchMember(c, s0, b, led, kv, id);
    assert Placed(s0, id) && ReqLimits(c, s0.reqs[id]);
    assert b.sys.Get(b.seqs[0]) == b.sys.reqs[id];
  }

  lemma UncutBatchSafe(c: Config, s0: Sys, b: Batch, led: Ledger, led0: Ledger, kv: Memory)
    requires Scheduled(c, s0, b, led, kv) && AtRest(c, s0, led0, kv) && b.numPrefill <= |b.seqs| && NoCutResume(b)
    ensures ChunkSafe(b)
  {
    hide Quiescent, Mid;
    DeliveriesReady(c, s0, b, led, kv);
    forall k | 0 <= k < b.numPrefill
      ensures b.sys.Get(b.seqs[k]).numPrompt <= |b.sys.Get(b.seqs[k]).tokens|
    {
      BatchMember(c, s0, b, led, kv, b.seqs[k]);
      assert ReqLimits(c, s0.reqs[b.seqs[k]]);
    }
    NoCutIsSafe(b);
  }

  lemma ChunkLeftBound(c: Config, s: Sys, led: Ledger, kv: Memory)
    requires Nearly(c, s, led, kv)
    ensures ChunkLeft(c, s) <= c.maxLen
  {
    hide Quiescent;
    if s.chunked.Some? {
      assert Placed(s, s.chunked.value) && ReqLimits(c, s.reqs[s.chunked.value]);
    }
  }

  /** In any configuration whatsoever, a step that succeeds and cuts no resumed request strictly decreases the tokens
      still to come, or leaves them and decreases what is left of the chunk; and it ends at rest. */
  lemma UncutDecreases(net: Net, c: Config, e: Engine, led: Ledger, kv: Memory) returns (led': Ledger, kv': Memory)
    requires AtRest(c, e.sys, led, kv) && Holds(net, e.mems, kv) && UncutStep(c, e.sys) && Step(net, c, e).Ok?
    ensures var s' := Step(net, c, e).value.sys;
            && ((Remaining(s'.reqs) < Remaining(e.sys.reqs) && ChunkLeft(c, s') <= c.maxLen)
                || (Remaining(s'.reqs) <= Remaining(e.sys.reqs) && ChunkLeft(c, s') < ChunkLeft(c, e.sys)))
            && UncutMeasure(c, s') < UncutMeasure(c, e.sys)
            && SafeStep(c, e.sys)
  {
    hide Postprocess, Nearly, AtRest, Holds, Step, Schedule, Ended, ChunkLeft, NeedLogits, TokenStep, Cut;
    RestIsSteppable(c, e.sys, led, kv);
    var ts;
    led', kv', ts := StepOk(net, c, e, led, kv);
    var e' := Step(net, c, e).value;
    var b := Schedule(c, e.sys).value;
    var s0 := AfterPreemption(c, e.sys);
    PreemptionKeepsRequests(c, e.sys, led, kv);
    EndedBatch(c, s0, b, led', led, kv, ts, e'.sys);
    UncutBatchSafe(c, s0, b, led', led, kv);
    LoudDrops(net, c, e, e', s0, b, led', led, kv, ts);
    ChunkLeftBound(c, e'.sys, led', kv');
    if NeedLogits(b.sys, b.seqs) == [] {
      UncutSilent(c, e.sys, s0, b, led', led, kv, ts, e'.sys);
    }
    Lexicographic(Remaining(e.sys.reqs), Remaining(e'.sys.reqs), c.maxLen + 1, ChunkLeft(c, e.sys),
                  ChunkLeft(c, e'.sys));
  }

  lemma EndedBatch(c: Config, s0: Sys, b: Batch, led: Ledger, led0: Ledger, kv: Memory, ts: seq<Token>, s: Sys)
    requires Ended(c, s0, b, led, led0, kv, ts, s)
    ensures Scheduled(c, s0, b, led, kv) && AtRest(c, s0, led0, kv) && |ts| == |NeedLogits(b.sys, b.seqs)|
  {
  }

  // ---------------------------------------------------------------- generate

  /** The loop of `generate`: step until every queue is empty, within `n` steps. */
  ghost function Generate(net: Net, c: Config, e: Engine, n: nat): Result<Engine>
    decreases n
  {
    if e.sys.IsFinished() then Ok(e)
    else if n == 0 then Err(NoProgress)
    else
      var e' :- Step(net, c, e);
      Generate(net, c, e', n - 1)
  }

  /** The loop ends within `n` steps, with every queue empty or with an exception. */
  ghost predicate EndsWithin(net: Net, c: Config, e: Engine, n: nat)
    decreases n
  {
    || e.sys.IsFinished()
    || (n > 0 && var e' := Step(net, c, e); (e'.Err? || EndsWithin(net, c, e'.value, n - 1)))
  }

  /** Every tick of the loop is safe. */
  ghost predicate SafeGenerate(net: Net, c: Config, e: Engine, n: nat)
    decreases n
  {
    !e.sys.IsFinished() && n > 0 ==>
      && SafeTick(c, e.sys)
      && var e' := Step(net, c, e);
      && (e'.Ok? ==> SafeGenerate(net, c, e'.value, n - 1))
  }

  /** No step of the loop cuts a resumed request. */
  ghost predicate UncutGenerate(net: Net, c: Config, e: Engine, n: nat)
    decreases n
  {
    !e.sys.IsFinished() && n > 0 ==>
      && UncutStep(c, e.sys)
      && var e' := Step(net, c, e);
      && (e'.Ok? ==> UncutGenerate(net, c, e'.value, n - 1))
  }

  /** In an empty engine every request is finished, with exactly the tokens of its reference run. */
  ghost predicate AllDone(net: Net, c: Config, s: Sys) {
    forall id: nat :: id < |s.reqs| ==>
      && s.reqs[id].status == Finished && 1 <= s.reqs[id].numPrompt <= |s.reqs[id].tokens|
      && s.reqs[id].tokens == Decode(net, c, s.reqs[id], s.reqs[id].tokens[..s.reqs[id].numPrompt])
  }

  lemma FinishedAllDone(net: Net, c: Config, s: Sys, led: Ledger, kv: Memory)
    requires Nearly(c, s, led, kv) && AllFaithful(net, c, s) && s.IsFinished()
    ensures AllDone(net, c, s)
  {
    hide Quiescent, Decode;
    forall id: nat | id < |s.reqs|
      ensures s.reqs[id].status == Finished && Faithful(net, c, s.reqs[id])
    {
      assert Placed(s, id) && Faithful(net, c, s.reqs[id]);
    }
  }

  /** With an ample pool the loop always ends within the measure, although preemption discards work. */
  lemma {:induction false} AmpleEnds(net: Net, c: Config, e: Engine, led: Ledger, kv: Memory, n: nat)
    requires Nearly(c, e.sys, led, kv) && Holds(net, e.mems, kv) && AllFaithful(net, c, e.sys)
    requires Ample(c) && Measure(c, e.sys) < n
    ensures EndsWithin(net, c, e, n)
    decreases n
  {
    hide Nearly, Holds, Step, Schedule, ScheduleFrom, SafeTick, AllFaithful, Measure, Ample;
    if !e.sys.IsFinished() && Step(net, c, e).Ok? {
      var led', kv' := StepKeeps(net, c, e, led, kv);
      AmpleDecreases(net, c, e, led, kv);
      AmpleEnds(net, c, Step(net, c, e).value, led', kv', n - 1);
    }
  }

  /** In any configuration the loop ends within the measure if no resumed request is cut, and then every tick is
      safe. */
  lemma {:induction false} UncutEnds(net: Net, c: Config, e: Engine, led: Ledger, kv: Memory, n: nat)
    requires AtRest(c, e.sys, led, kv) && Holds(net, e.mems, kv) && AllFaithful(net, c, e.sys)
    requires UncutGenerate(net, c, e, n) && UncutMeasure(c, e.sys) < n
    ensures EndsWithin(net, c, e, n) && SafeGenerate(net, c, e, n)
    decreases n
  {
    hide Nearly, Cut, Holds, Step, UncutStep, AllFaithful, UncutMeasure, SafeStep;
    if !e.sys.IsFinished() && Step(net, c, e).Ok? {
      var led', kv' := StepKeeps(net, c, e, led, kv);
      var led1, kv1 := UncutDecreases(net, c, e, led, kv);
      UncutEnds(net, c, Step(net, c, e).value, led', kv', n - 1);
    }
  }

  /** How the loop ends: with each request holding its own reference tokens, with one of the two exceptions about
      missing budget, or with a failed assertion, the last exactly if a tick was not safe. An ample pool rules the two
      out. */
  lemma {:induction false} GenerateExact(net: Net, c: Config, e: Engine, led: Ledger, kv: Memory, n: nat)
    requires Nearly(c, e.sys, led, kv) && Holds(net, e.mems, kv) && AllFaithful(net, c, e.sys)
             && EndsWithin(net, c, e, n)
    ensures Generate(net, c, e, n).Ok? ==> AllDone(net, c, Generate(net, c, e, n).value.sys)
    ensures Generate(net, c, e, n) == Err(AssertionFailed) <==> !SafeGenerate(net, c, e, n)
    ensures Generate(net, c, e, n).Err? && SafeGenerate(net, c, e, n) ==>
              !Ample(c) && (Generate(net, c, e, n).error == PromptTooLong || Generate(net, c, e, n).error == NoProgress)
    decreases n
  {
    hide Nearly, Holds, Step, SafeTick, AllFaithful, AllDone, Ample;
    if e.sys.IsFinished() {
      FinishedAllDone(net, c, e.sys, led, kv);
    } else {
      var led', kv' := StepKeeps(net, c, e, led, kv);
      if Ample(c) && SafeTick(c, e.sys) {
        AmpleDecreases(net, c, e, led, kv);
      }
      if Step(net, c, e).Ok? {
        GenerateExact(net, c, Step(net, c, e).value, led', kv', n - 1);
      }
    }
  }

  /** With an ample pool and safe ticks, `generate` ends within the measure without an error. */
  lemma GenerateCorrect(net: Net, c: Config, e: Engine, led: Ledger, kv: Memory, n: nat)
    requires Nearly(c, e.sys, led, kv) && Holds(net, e.mems, kv) && AllFaithful(net, c, e.sys)
    requires Ample(c) && SafeGenerate(net, c, e, n) && Measure(c, e.sys) < n
    ensures Generate(net, c, e, n).Ok? && AllDone(net, c, Generate(net, c, e, n).value.sys)
  {
    hide Nearly, Holds, AllFaithful, AllDone, Ample, Measure, Generate, SafeGenerate, EndsWithin;
    AmpleEnds(net, c, e, led, kv, n);
    GenerateExact(net, c, e, led, kv, n);
  }

  /** In any configuration, if no resumed request is cut, the loop ends within the measure: with every request holding
      its reference tokens, or with one of the two exceptions about missing budget. */
  lemma UncutGenerateEnds(net: Net, c: Config, e: Engine, led: Ledger, kv: Memory, n: nat)
    requires AtRest(c, e.sys, led, kv) && Holds(net, e.mems, kv) && AllFaithful(net, c, e.sys)
    requires UncutGenerate(net, c, e, n) && UncutMeasure(c, e.sys) < n
    ensures var end := Generate(net, c, e, n);
            if end.Ok? then AllDone(net, c, end.value.sys) else end.error == PromptTooLong || end.error == NoProgress
  {
    hide Nearly, Cut, Holds, AllFaithful, AllDone, UncutMeasure, Generate, SafeGenerate, UncutGenerate, EndsWithin;
    UncutEnds(net, c, e, led, kv, n);
    GenerateExact(net, c, e, led, kv, n);
  }

  // ---------------------------------------------------------------- when nothing is cut

  /** Without chunked prefill nothing is ever cut. */
  lemma UnchunkedUncut(c: Config, s: Sys, led: Ledger, kv: Memory)
    requires AtRest(c, s, led, kv) && !c.chunked
    ensures UncutStep(c, s)
  {
    hide AtRest, Nearly, Cut, Mid, ScheduleFrom;
    RestIsSteppable(c, s, led, kv);
    PreemptionKeepsRequests(c, s, led, kv);
    var s0 := AfterPreemption(c, s);
    var led', m := ScheduleFromOk(c, s0, led, kv);
    if Schedule(c, s).Ok? {
      var b := Schedule(c, s).value;
      forall k | 0 <= k < b.numPrefill
        ensures Complete(b.sys, b.seqs[k])
      {
        assert k < b.numPrefill - 1 || !c.chunked;
      }
    }
  }

  lemma {:induction false} UnchunkedGenerate(net: Net, c: Config, e: Engine, led: Ledger, kv: Memory, n: nat)
    requires AtRest(c, e.sys, led, kv) && Holds(net, e.mems, kv) && AllFaithful(net, c, e.sys) && !c.chunked
    ensures UncutGenerate(net, c, e, n)
    decreases n
  {
    hide Nearly, Cut, Holds, Step, UncutStep, SafeStep, AllFaithful;
    if !e.sys.IsFinished() && n > 0 {
      UnchunkedUncut(c, e.sys, led, kv);
      if Step(net, c, e).Ok? {
        var led', kv' := StepKeeps(net, c, e, led, kv);
        var led1, kv1 := UncutDecreases(net, c, e, led, kv);
        UnchunkedGenerate(net, c, Step(net, c, e).value, led', kv', n - 1);
      }
    }
  }
}
