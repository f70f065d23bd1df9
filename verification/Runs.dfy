/** Whole runs: every request gets exactly the tokens it would get alone. */
module Runs {
  import opened Arith
  import opened Requests
  import opened Pages
  import opened CacheInvariant
  import opened KvMemory
  import opened Growth
  import opened Boundary
  import opened Scheduling
  import opened SchedulerState
  import opened Prefill
  import opened Steps
  import opened CutFails
  import opened Delivery
  import opened Postprocessing
  import opened Addressing
  import opened Forward
  import opened BatchForward
  import opened Engine

  // ---------------------------------------------------------------- the reference decoder

  /** Decode one request alone, from `tokens` on, until it stops. */
  function Decode(net: Net, c: Config, r: Req, tokens: seq<Token>): seq<Token>
    requires tokens != []
    decreases c.maxLen - |tokens|
  {
    var t := tokens + [NextToken(net, tokens)];
    if Stops(c, r.(tokens := t)) then t else Decode(net, c, r, t)
  }

  /** The request is on the path of its own reference run; a finished one is at its end. */
  ghost predicate Faithful(net: Net, c: Config, r: Req) {
    && 1 <= r.numPrompt <= |r.tokens|
    && (if r.status == Finished then r.tokens == Decode(net, c, r, r.tokens[..r.numPrompt])
        else Decode(net, c, r, r.tokens) == Decode(net, c, r, r.tokens[..r.numPrompt]))
  }

  lemma {:induction false} DecodeSame(net: Net, c: Config, r: Req, r': Req, tokens: seq<Token>)
    requires tokens != [] && r'.numPrompt == r.numPrompt && r'.maxTokens == r.maxTokens && r'.ignoreEos == r.ignoreEos
    ensures Decode(net, c, r', tokens) == Decode(net, c, r, tokens)
    decreases c.maxLen - |tokens|
  {
    var t := tokens + [NextToken(net, tokens)];
    if !Stops(c, r.(tokens := t)) {
      DecodeSame(net, c, r, r', t);
    }
  }

  /** What a step may do to a request: nothing to its tokens, or append exactly the next one. */
  ghost predicate TokenStep(net: Net, c: Config, r: Req, r': Req) {
    && r'.numPrompt == r.numPrompt && r'.maxTokens == r.maxTokens && r'.ignoreEos == r.ignoreEos
    && r.tokens != []
    && (|| (r'.tokens == r.tokens && (r'.status == Finished <==> r.status == Finished))
        || (&& r.status != Finished
            && r'.tokens == r.tokens + [NextToken(net, r.tokens)]
            && (r'.status == Finished <==> Stops(c, r'))))
  }

  lemma TokenStepFaithful(net: Net, c: Config, r: Req, r': Req)
    requires Faithful(net, c, r) && TokenStep(net, c, r, r')
    ensures Faithful(net, c, r')
  {
    DecodeSame(net, c, r, r', r.tokens[..r.numPrompt]);
    assert r'.tokens[..r.numPrompt] == r.tokens[..r.numPrompt];
    DecodeSame(net, c, r, r', r'.tokens);
    if r'.tokens != r.tokens {
      assert Stops(c, r') <==> Stops(c, r.(tokens := r'.tokens));
    }
  }

  // ---------------------------------------------------------------- one step, all at once

  /** The state preemption leaves, which the batch is scheduled from. */
  function AfterPreemption(c: Config, s: Sys): Sys {
    var r := PreemptTail(c, s);
    if r.Ok? then r.value else s
  }

  /** Preemption finishes nobody. */
  lemma PreemptionKeepsRequests(c: Config, s: Sys, led: Ledger, kv: Memory)
    requires Steppable(c, s, led, kv)
    ensures PreemptTail(c, s).Ok?
    ensures var s0 := AfterPreemption(c, s);
            && AtRest(c, s0, led, kv) && DecodeFits(c, s0) && SameRequests(s.reqs, s0.reqs)
            && s0.chunked == s.chunked && (s.chunked.Some? ==> s0.Get(s.chunked.value) == s.Get(s.chunked.value))
            && (forall id: nat :: id < |s.reqs| ==> (s0.reqs[id].status == Finished <==> s.reqs[id].status == Finished))
  {
    hide Quiescent;
    var k := PreemptTailLongest(c, s, led, kv);
    var s0 := PreemptTail(c, s).value;
    if s.chunked.Some? {
      assert Placed(s, s.chunked.value);
    }
    forall id: nat | id < |s.reqs|
      ensures s0.reqs[id].status == Finished <==> s.reqs[id].status == Finished
    {
      assert Placed(s, id) && Placed(s0, id);
      if id in s.running[k..] {
        var j :| 0 <= j < |s.running[k..]| && s.running[k..][j] == id;
        assert s.running[k + j] == id;
        PreemptedWaits(c, s, s0, k, id);
      }
    }
  }

  lemma PreemptedWaits(c: Config, s: Sys, s0: Sys, k: nat, id: nat)
    requires PreemptedTo(c, s, s0, k) && id in s.running[k..]
    ensures id in s0.waiting
  {
    assert s.running + s.waiting == s.running[..k] + (s.running[k..] + s.waiting);
    assert s0.waiting == (s0.running + s0.waiting)[k..];
    assert s0.waiting == s.running[k..] + s.waiting;
  }

  /** After a batch was computed, each request made one token step. */
  lemma PostedTokens(net: Net, c: Config, s0: Sys, b: Batch, led: Ledger, led0: Ledger, kv0: Memory, ts: seq<Token>,
                     s: Sys, id: nat)
    requires Ended(c, s0, b, led, led0, kv0, ts, s) && TokensRight(net, b, ts) && id < |s.reqs|
    ensures |s.reqs| == |s0.reqs| && TokenStep(net, c, s0.reqs[id], s.reqs[id])
  {
    hide FinalReq, Alive, Promoted, Quiescent, Mid, NeedLogits, Decode, NextToken;
    assert id < |b.sys.reqs|;
    BatchMember(c, s0, b, led, kv0, id);
    RestLimits(c, s0, led0, kv0);
    assert ReqLimits(c, s0.reqs[id]);
    FinalCases(c, s0, b, led, kv0, ts, id);
    if id in b.seqs {
      assert Placed(s0, id);
      if Complete(b.sys, id) {
        assert IndexOf(NeedLogits(b.sys, b.seqs), id) < |ts|;
      }
    }
  }

  /** What one step of the engine does: it raises for lack of budget, or every request makes a token step;
      and it ends at rest exactly when the batch was chunk-safe, and otherwise with one cut request. */
  lemma StepOk(net: Net, c: Config, e: Engine, led: Ledger, kv: Memory)
      returns (led': Ledger, kv': Memory, ts: seq<Token>)
    requires Steppable(c, e.sys, led, kv) && Holds(net, e.mems, kv)
    ensures Schedule(c, e.sys).Err? ==>
              Step(net, c, e) == Err(Schedule(c, e.sys).error)
              && (Schedule(c, e.sys).error == PromptTooLong || Schedule(c, e.sys).error == NoProgress)
    ensures Schedule(c, e.sys).Ok? ==>
              && Step(net, c, e).Ok?
              && var e' := Step(net, c, e).value;
              && var b := Schedule(c, e.sys).value;
              && b.numPrefill <= |b.seqs|
              && Ended(c, AfterPreemption(c, e.sys), b, led', led, kv, ts, e'.sys)
              && Postprocess(c, b, NeedLogits(b.sys, b.seqs), ts) == Ok(e'.sys)
              && Nearly(c, e'.sys, led', kv') && (Cut(e'.sys) <==> !ChunkSafe(b))
              && (AtRest(c, e'.sys, led', kv') <==> ChunkSafe(b))
              && Quiescent(c, b.sys.pool, b.sys.reqs, led', kv')
              && Holds(net, e'.mems, kv')
              && |e'.sys.reqs| == |e.sys.reqs|
              && forall id: nat {:trigger e'.sys.reqs[id]} ::
                   id < |e.sys.reqs| ==> TokenStep(net, c, e.sys.reqs[id], e'.sys.reqs[id])
    ensures LedgerExtends(led, led')
  {
    hide AtRest, Nearly, Cut, Scheduled, Holds, ScheduleFrom, PreemptTail, Postprocess, RunBatch, NeedLogits,
         TokensRight, Posted, HoldsAllNew, Quiescent;
    led', kv', ts := led, kv, [];
    PreemptionKeepsRequests(c, e.sys, led, kv);
    var s0 := AfterPreemption(c, e.sys);
    var m;
    led', m := ScheduleFromOk(c, s0, led, kv);
    if Schedule(c, e.sys).Ok? {
      var b := Schedule(c, e.sys).value;
      kv' := StepBatch(net, c, s0, b, e.mems, led', led, kv);
      StepIsBatch(net, c, e, s0, b, led', led, kv);
      ts := RunBatch(net, c, b, e.mems).1;
      ScheduledPrefills(c, s0, b, led', kv);
      var s := Postprocess(c, b, NeedLogits(b.sys, b.seqs), ts).value;
      assert |e.mems| == net.layers by { HoldsLayers(net, e.mems, kv); }
      forall id: nat | id < |e.sys.reqs|
        ensures TokenStep(net, c, e.sys.reqs[id], s.reqs[id])
      {
        PostedTokens(net, c, s0, b, led', led, kv, ts, s, id);
        assert SameRequest(e.sys.reqs[id], s0.reqs[id]);
      }
    }
  }

  lemma HoldsLayers(net: Net, mems: Layers, kv: Memory)
    requires Holds(net, mems, kv)
    ensures |mems| == net.layers
  {
  }

  /** Compute and postprocess one scheduled batch. */
  lemma StepBatch(net: Net, c: Config, s0: Sys, b: Batch, mems: Layers, led: Ledger, led0: Ledger, kv: Memory)
      returns (kv': Memory)
    requires Scheduled(c, s0, b, led, kv) && AtRest(c, s0, led0, kv) && Holds(net, mems, kv)
    ensures HoldsAllNew(c, b.sys.reqs, b.seqs) && |mems| == net.layers && b.numPrefill <= |b.seqs|
    ensures var (mems', ts) := RunBatch(net, c, b, mems);
            && Holds(net, mems', kv') && TokensRight(net, b, ts) && |ts| == |NeedLogits(b.sys, b.seqs)|
            && var res := Postprocess(c, b, NeedLogits(b.sys, b.seqs), ts);
            && res.Ok?
            && Ended(c, s0, b, led, led0, kv, ts, res.value)
            && |res.value.reqs| == |b.sys.reqs|
            && Nearly(c, res.value, led, kv') && (Cut(res.value) <==> !ChunkSafe(b))
            && (AtRest(c, res.value, led, kv') <==> ChunkSafe(b))
    ensures Quiescent(c, b.sys.pool, b.sys.reqs, led, kv')
  {
    hide AtRest, Nearly, Cut, Scheduled, Postprocess, RunBatch, NeedLogits, Quiescent;
    kv' := RunBatchRight(net, c, s0, b, led, led0, kv, mems);
    ScheduledPrefills(c, s0, b, led, kv);
    var ts := RunBatch(net, c, b, mems).1;
    PostprocessPosted(c, s0, b, led, led0, kv, kv', ts);
    PostprocessAtRest(c, s0, b, led, led0, kv, kv', ts);
    PostprocessNearly(c, s0, b, led, led0, kv, kv', ts);
  }

  // ---------------------------------------------------------------- start and arrivals

  function InitEngine(c: Config, mems: Layers): Engine {
    Engine(Sys(InitPool(c), [], [], None, []), mems)
  }

  /** `add_request`: the prompt must not be empty, the sampling parameters valid, the sequence short enough. */
  function AddRequest(c: Config, e: Engine, prompt: seq<Token>, maxTokens: int, ignoreEos: bool): Result<Engine> {
    if prompt == [] || maxTokens <= 0 || |prompt| + 1 > c.maxLen then Err(AssertionFailed)
    else
      var r := Req(prompt, |prompt|, maxTokens, ignoreEos, 0, 0, [], Waiting);
      Ok(e.(sys := e.sys.(reqs := e.sys.reqs + [r], waiting := e.sys.waiting + [|e.sys.reqs|])))
  }

  lemma NewcomerQuiescent(c: Config, pool: Pool, reqs: seq<Req>, led: Ledger, kv: Memory, r: Req)
    requires Quiescent(c, pool, reqs, led, kv) && r.table == [] && r.cached == 0 && r.newToks == 0
    ensures Quiescent(c, pool, reqs + [r], led, kv)
  {
    var reqs' := reqs + [r];
    assert r == Cleared(r);
    ClearedTable(c, pool.pages, led, kv, r);
    forall b: nat | b < |pool.pages|
      ensures RefOk(pool, reqs', b)
    {
      assert RefOk(pool, reqs, b);
      assert Users(reqs', b) == Users(reqs, b);
    }
    forall id: nat | id < |reqs'|
      ensures TableOk(c, pool.pages, led, reqs'[id])
      ensures TableReady(c, pool.pages, kv, reqs'[id], reqs'[id].Context()) && Aligned(c, pool.pages, reqs'[id])
    {
      if id < |reqs| {
        assert TableOk(c, pool.pages, led, reqs[id]);
        assert TableReady(c, pool.pages, kv, reqs[id], reqs[id].Context()) && Aligned(c, pool.pages, reqs[id]);
      }
    }
    forall a: nat, b: nat | a < |reqs'| && b < |reqs'| && a != b
      ensures Share(c, reqs'[a], reqs'[b])
    {
      if a < |reqs| && b < |reqs| { assert Share(c, reqs[a], reqs[b]); }
    }
  }

  lemma AddOk(net: Net, c: Config, e: Engine, led: Ledger, kv: Memory, prompt: seq<Token>, maxTokens: int,
              ignoreEos: bool)
    requires Nearly(c, e.sys, led, kv) && AddRequest(c, e, prompt, maxTokens, ignoreEos).Ok?
    ensures var e' := AddRequest(c, e, prompt, maxTokens, ignoreEos).value;
            && Nearly(c, e'.sys, led, kv) && (AtRest(c, e.sys, led, kv) ==> AtRest(c, e'.sys, led, kv))
               && e'.mems == e.mems
            && |e'.sys.reqs| == |e.sys.reqs| + 1 && e'.sys.reqs[..|e.sys.reqs|] == e.sys.reqs
            && Faithful(net, c, e'.sys.reqs[|e.sys.reqs|])
  {
    hide Quiescent, Decode;
    var e' := AddRequest(c, e, prompt, maxTokens, ignoreEos).value;
    var n := |e.sys.reqs|;
    NewcomerQuiescent(c, e.sys.pool, e.sys.reqs, led, kv, e'.sys.reqs[n]);
    assert Cut(e'.sys) == Cut(e.sys);
    forall id: nat | id < |e'.sys.reqs|
      ensures Placed(e'.sys, id) && ReqLimits(c, e'.sys.reqs[id])
      ensures !(Cut(e.sys) && id == e.sys.running[|e.sys.running| - 1]) ==> Progress(e'.sys, id)
    {
      if id < n {
        assert Placed(e.sys, id) && ReqLimits(c, e.sys.reqs[id]);
        assert !(Cut(e.sys) && id == e.sys.running[|e.sys.running| - 1]) ==> Progress(e.sys, id);
      }
    }
    assert prompt[..|prompt|] == prompt;
  }

  /** Nothing is in memory yet. */
  function BlankMemory(c: Config): Memory {
    seq(Start(c.numBlocks, c.B), _ => [])
  }

  lemma InitOk(net: Net, c: Config, mems: Layers)
    requires |mems| == net.layers && forall l :: 0 <= l < |mems| ==> |mems[l]| == Start(c.numBlocks, c.B)
    ensures AtRest(c, InitEngine(c, mems).sys, map[], BlankMemory(c)) && Holds(net, mems, BlankMemory(c))
  {
    var s := InitEngine(c, mems).sys;
    forall b: nat | b < |s.pool.pages|
      ensures RefOk(s.pool, s.reqs, b)
    {
      assert Users(s.reqs, b) == {};
      assert s.pool.free[b] == b;
    }
  }

  // ---------------------------------------------------------------- runs

  datatype Event = Add(prompt: seq<Token>, maxTokens: int, ignoreEos: bool) | Tick

  ghost function Apply(net: Net, c: Config, e: Engine, ev: Event): Result<Engine> {
    match ev
    case Add(prompt, maxTokens, ignoreEos) => AddRequest(c, e, prompt, maxTokens, ignoreEos)
    case Tick => Step(net, c, e)
  }

  /** Requests may arrive between any two steps. */
  ghost function Run(net: Net, c: Config, e: Engine, events: seq<Event>): Result<Engine>
    decreases |events|
  {
    if events == [] then Ok(e)
    else
      var e' :- Apply(net, c, e, events[0]);
      Run(net, c, e', events[1..])
  }

  /** A new request that `add_request` accepts. */
  predicate Acceptable(c: Config, ev: Event) {
    ev.Add? ==> ev.prompt != [] && ev.maxTokens > 0 && |ev.prompt| + 1 <= c.maxLen
  }

  /** The step from this state does not cut a prefill where the engine cannot pick it up again. */
  ghost predicate SafeStep(c: Config, s: Sys) {
    var b := Schedule(c, s);
    b.Ok? && b.value.numPrefill <= |b.value.seqs| ==> ChunkSafe(b.value)
  }

  /** What a caller can see before a step: no request was cut, or the cut one does not fit and preemption will take
      it. */
  predicate SafeTick(c: Config, s: Sys) {
    Cut(s) ==> !DecodeFits(c, s)
  }

  ghost predicate SafeRun(net: Net, c: Config, e: Engine, events: seq<Event>)
    decreases |events|
  {
    events != [] ==>
      && (events[0].Tick? ==> SafeTick(c, e.sys))
      && var e' := Apply(net, c, e, events[0]);
      && (e'.Ok? ==> SafeRun(net, c, e'.value, events[1..]))
  }

  ghost predicate AllFaithful(net: Net, c: Config, s: Sys) {
    forall id: nat {:trigger s.reqs[id]} :: id < |s.reqs| ==> Faithful(net, c, s.reqs[id])
  }

  /** A step that fails inside: exactly those whose tick was not safe. */
  lemma UnsafeTick(net: Net, c: Config, e: Engine, led: Ledger, kv: Memory)
    requires Nearly(c, e.sys, led, kv) && !SafeTick(c, e.sys)
    ensures Step(net, c, e) == Err(AssertionFailed)
  {
    hide Nearly, Schedule;
    CutIsFatal(c, e.sys, led, kv);
  }

  /** Every step keeps the invariant, or raises: for lack of budget if its tick was safe, and inside if it was not. */
  lemma StepKeeps(net: Net, c: Config, e: Engine, led: Ledger, kv: Memory) returns (led': Ledger, kv': Memory)
    requires Nearly(c, e.sys, led, kv) && Holds(net, e.mems, kv) && AllFaithful(net, c, e.sys)
    ensures Step(net, c, e).Err? && SafeTick(c, e.sys) ==>
              Step(net, c, e).error == PromptTooLong || Step(net, c, e).error == NoProgress
    ensures !SafeTick(c, e.sys) ==> Step(net, c, e) == Err(AssertionFailed)
    ensures Step(net, c, e).Ok? ==>
              var e' := Step(net, c, e).value;
              && Nearly(c, e'.sys, led', kv') && Holds(net, e'.mems, kv') && AllFaithful(net, c, e'.sys)
              && (SafeStep(c, e.sys) ==> AtRest(c, e'.sys, led', kv'))
    ensures LedgerExtends(led, led')
  {
    hide Postprocess, Nearly, AtRest, Holds, Step, Schedule, Scheduled, Decode, Cut;
    led', kv' := led, kv;
    if SafeTick(c, e.sys) {
      var ts;
      led', kv', ts := StepOk(net, c, e, led, kv);
      if Schedule(c, e.sys).Ok? {
        var e' := Step(net, c, e).value;
        forall id: nat | id < |e'.sys.reqs|
          ensures Faithful(net, c, e'.sys.reqs[id])
        {
          assert TokenStep(net, c, e.sys.reqs[id], e'.sys.reqs[id]);
          TokenStepFaithful(net, c, e.sys.reqs[id], e'.sys.reqs[id]);
        }
      }
    } else {
      UnsafeTick(net, c, e, led, kv);
    }
  }

  /** Engine transparency over every run: requests arriving at any time, any block count, LPM on or off, same-step reuse
      on or off, chunking and preemption. Whatever has not raised keeps every request on the path of its own reference
      run; the only exceptions are the two about missing budget, and a failed assertion exactly when a tick was not
      safe. The meaning of a published lineage never changes. */
  lemma {:induction false} RunTransparent(net: Net, c: Config, e: Engine, events: seq<Event>, led: Ledger, kv: Memory)
    returns (led': Ledger, kv': Memory)
    requires Nearly(c, e.sys, led, kv) && Holds(net, e.mems, kv) && AllFaithful(net, c, e.sys)
    ensures Run(net, c, e, events).Ok? ==>
              var e' := Run(net, c, e, events).value;
              Nearly(c, e'.sys, led', kv') && Holds(net, e'.mems, kv') && AllFaithful(net, c, e'.sys)
    ensures (forall k :: 0 <= k < |events| ==> Acceptable(c, events[k])) ==>
              && (Run(net, c, e, events) == Err(AssertionFailed) <==> !SafeRun(net, c, e, events))
              && (Run(net, c, e, events).Err? && SafeRun(net, c, e, events) ==>
                    Run(net, c, e, events).error == PromptTooLong || Run(net, c, e, events).error == NoProgress)
    ensures LedgerExtends(led, led')
    decreases |events|
  {
    hide Nearly, Holds, Step, AddRequest, Faithful, SafeTick, AllFaithful;
    led', kv' := led, kv;
    if events != [] {
      var rest := events[1..];
      assert (forall k :: 0 <= k < |events| ==> Acceptable(c, events[k])) ==>
               Acceptable(c, events[0]) && forall k :: 0 <= k < |rest| ==> Acceptable(c, rest[k]);
      match events[0] {
        case Add(prompt, maxTokens, ignoreEos) =>
          AcceptableAdds(c, e, events[0]);
          if AddRequest(c, e, prompt, maxTokens, ignoreEos).Ok? {
            AddOk(net, c, e, led, kv, prompt, maxTokens, ignoreEos);
            var e1 := AddRequest(c, e, prompt, maxTokens, ignoreEos).value;
            NewcomerFaithful(net, c, e.sys, e1.sys);
            led', kv' := RunTransparent(net, c, e1, events[1..], led, kv);
          }
        case Tick =>
          var led1, kv1 := StepKeeps(net, c, e, led, kv);
          if Step(net, c, e).Ok? {
            led', kv' := RunTransparent(net, c, Step(net, c, e).value, events[1..], led1, kv1);
            LedgerTrans(led, led1, led');
          }
      }
    }
  }

  /** The same from an empty engine, with nothing assumed but the sizes of the caches and acceptable requests. */
  lemma EveryRun(net: Net, c: Config, mems: Layers, events: seq<Event>)
    requires |mems| == net.layers && forall l :: 0 <= l < |mems| ==> |mems[l]| == Start(c.numBlocks, c.B)
    requires forall k :: 0 <= k < |events| ==> Acceptable(c, events[k])
    ensures var run := Run(net, c, InitEngine(c, mems), events);
            if run.Err? then
              && (run.error == AssertionFailed || run.error == PromptTooLong || run.error == NoProgress)
              && (run.error == AssertionFailed <==> !SafeRun(net, c, InitEngine(c, mems), events))
            else
              && SafeRun(net, c, InitEngine(c, mems), events)
              && PoolPartition(run.value.sys.pool, run.value.sys.reqs)
              && forall id: nat :: id < |run.value.sys.reqs| ==> Faithful(net, c, run.value.sys.reqs[id])
  {
    hide Nearly, AtRest, Holds, PoolPartition, Run, SafeRun, Faithful, InitEngine;
    InitOk(net, c, mems);
    var kv := BlankMemory(c);
    NobodyYet(c, mems);
    RestIsSteppable(c, InitEngine(c, mems).sys, map[], kv);
    var led', kv' := RunTransparent(net, c, InitEngine(c, mems), events, map[], kv);
    var run := Run(net, c, InitEngine(c, mems), events);
    if run.Ok? {
      PoolInvariant(c, run.value.sys, led', kv');
    }
  }

  lemma NobodyYet(c: Config, mems: Layers)
    ensures InitEngine(c, mems).sys.reqs == [] && InitEngine(c, mems).mems == mems
  {
  }

  lemma AcceptableAdds(c: Config, e: Engine, ev: Event)
    ensures ev.Add? && Acceptable(c, ev) ==> AddRequest(c, e, ev.prompt, ev.maxTokens, ev.ignoreEos).Ok?
  {
  }

  lemma NewcomerFaithful(net: Net, c: Config, s: Sys, s': Sys)
    requires AllFaithful(net, c, s) && |s'.reqs| == |s.reqs| + 1 && s'.reqs[..|s.reqs|] == s.reqs
    requires Faithful(net, c, s'.reqs[|s.reqs|])
    ensures AllFaithful(net, c, s')
  {
    forall id: nat | id < |s'.reqs|
      ensures Faithful(net, c, s'.reqs[id])
    {
      if id < |s.reqs| {
        assert s'.reqs[id] == s'.reqs[..|s.reqs|][id];
        assert Faithful(net, c, s.reqs[id]);
      }
    }
  }
}
