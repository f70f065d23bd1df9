/** The engine as an object: requests go in, `step` and `generate` give their completions back. */
module LLMEngines {
  import opened Arith
  import opened Requests
  import opened Pages
  import opened CacheInvariant
  import opened KvMemory
  import opened Growth
  import opened Boundary
  import opened Scheduling
  import opened SchedulerState
  import opened Prefill
  import opened Steps
  import opened CutFails
  import opened Postprocessing
  import opened KvStore
  import opened Addressing
  import opened ModelInput
  import opened Metadata
  import opened Forward
  import opened Kernel
  import opened Engine
  import opened Runs
  import opened Completions
  import opened Liveness
  import opened Termination
  import opened Cycles
  import opened Roomy
  import opened Sequences
  import opened Schedulers
  import opened ModelRunners

  /** The requests of the batch that are finished, with their completions. */
  function Outputs(s: Sys, ids: seq<nat>): seq<(nat, seq<Token>)> {
    if ids == [] then []
    else (if s.Get(ids[0]).status == Finished then [(ids[0], Completion(s.Get(ids[0])))] else []) + Outputs(s, ids[1..])
  }

  /** `completion_token_ids` */
  function Completion(r: Req): seq<Token> {
    Slice(r.tokens, r.numPrompt, |r.tokens|)
  }

  // ---------------------------------------------------------------- what a step may rely on

  /** A scheduled batch writes every new token to a slot of its own, inside the cache. */
  lemma ScheduledAddressable(c: Config, s0: Sys, b: Batch, led: Ledger, led0: Ledger, kv: Memory)
    requires Scheduled(c, s0, b, led, kv) && AtRest(c, s0, led0, kv)
    ensures var rs := RowsOf(b.sys.reqs, b.seqs);
            b.numPrefill <= |rs| && Paged(rs) && Prepared(c, rs, Present(b.numPrefill))
                == Ok(Arrays(c, rs, b.numPrefill))
            && Addressable(Arrays(c, rs, b.numPrefill), Start(c.numBlocks, c.B))
  {
    hide World, AtRest, Quiescent, AllAligned, KvPending, Ready, HoldsAllNew, FlatSlots, FlatTokens, FlatPositions,
         Covered;
    ScheduledReady(c, s0, b, led, led0, kv);
    var rs := RowsOf(b.sys.reqs, b.seqs);
    ReadyBounds(c, rs, b.numPrefill);
    ReadyPrepared(c, rs, b.numPrefill);
    ArraysInputs(c, rs, b.numPrefill);
    SlotsOwned(c, b.sys.pool, b.sys.reqs, led, b.seqs, b.numPrefill);
  }

  lemma ArraysInputs(c: Config, rs: seq<Req>, n: nat)
    requires n <= |rs|
    ensures Arrays(c, rs, n).inputIds == FlatTokens(rs) && Arrays(c, rs, n).common.slotMapping == FlatSlots(c, rs)
  {
  }

  lemma SlotsOwned(c: Config, pool: Pool, reqs: seq<Req>, led: Ledger, ids: seq<nat>, m: nat)
    requires World(c, pool, reqs, led) && |pool.pages| == c.numBlocks
    requires HoldsAllNew(c, reqs, ids) && Ready(c, RowsOf(reqs, ids), m)
    ensures var slots := FlatSlots(c, RowsOf(reqs, ids));
            |FlatTokens(RowsOf(reqs, ids))| == |slots| && SlotsIn(slots, Start(c.numBlocks, c.B)) && OwnSlots(slots)
  {
    hide World, FlatSlots, FlatTokens, FlatPositions, BatchPlaces, Covered;
    var slots, ps := FlatSlots(c, RowsOf(reqs, ids)), BatchPlaces(reqs, ids);
    TablesHeld(c, reqs, ids, m);
    FlatLengths(c, RowsOf(reqs, ids));
    EmbedLength(c, reqs, ids, m);
    BatchDistinct(c, pool, reqs, led, ids);
    PlacesGood(c, reqs, ids);
    forall n: nat | n < |slots|
      ensures slots[n] == BatchWrites(c, reqs, ids)[n].slot && 0 <= slots[n] < Start(c.numBlocks, c.B)
    {
      PlaceEntries(c, reqs, ids, n);
      NewSlotRight(c, pool, reqs, led, ps[n].id, ps[n].pos);
    }
  }

  /** Any successful `schedule` between steps gives a proper batch, and its tick was safe. */
  lemma ScheduleGives(c: Config, s: Sys, led: Ledger, kv: Memory) returns (led': Ledger)
    requires Nearly(c, s, led, kv)
    ensures Schedule(c, s).Ok? ==>
              && SafeTick(c, s) && AtRest(c, AfterPreemption(c, s), led, kv)
              && Scheduled(c, AfterPreemption(c, s), Schedule(c, s).value, led', kv)
  {
    hide Nearly, AtRest, Cut, DecodeFits, Scheduled, ScheduleFrom, PreemptTail;
    led' := led;
    if SafeTick(c, s) {
      PreemptionKeepsRequests(c, s, led, kv);
      var m;
      led', m := ScheduleFromOk(c, AfterPreemption(c, s), led, kv);
    } else {
      CutIsFatal(c, s, led, kv);
    }
  }

  /** The requests that a step finishes are the finished ones of its batch. */
  lemma NewlyFinished(c: Config, s: Sys, s0: Sys, b: Batch, led: Ledger, led0: Ledger, kv: Memory, ts: seq<Token>,
                      s': Sys, id: nat)
    requires Ended(c, s0, b, led, led0, kv, ts, s') && id < |s'.reqs|
    requires |s.reqs| == |s0.reqs| && forall x: nat ::
               x < |s.reqs| ==> (s0.reqs[x].status == Finished <==> s.reqs[x].status == Finished)
    ensures |s'.reqs| == |s.reqs|
    ensures s'.reqs[id].status == Finished && s.reqs[id].status != Finished
            <==> id in b.seqs && s'.reqs[id].status == Finished
    ensures s.reqs[id].status == Finished ==> s'.reqs[id] == s0.reqs[id]
  {
    hide Quiescent, Mid, NeedLogits, Stops, FinalReq;
    assert id < |b.sys.reqs|;
    BatchMember(c, s0, b, led, kv, id);
    FinalCases(c, s0, b, led, kv, ts, id);
    assert s'.reqs[id] == FinalReq(c, b, ts, id);
    assert Placed(s0, id);
  }

  lemma {:induction false} OutputsAre(s: Sys, ids: seq<nat>)
    ensures forall o :: o in Outputs(s, ids) <==>
              o.0 in ids && s.Get(o.0).status == Finished && o.1 == Completion(s.Get(o.0))
  {
    if ids != [] {
      OutputsAre(s, ids[1..]);
    }
  }

  // ---------------------------------------------------------------- the object

  class LLMEngine {
    const config: Config
    const net: Net
    const scheduler: Scheduler
    const runner: ModelRunner
    var nextSeqId: nat              // Sequence.counter
    ghost var led: Ledger
    ghost var kv: Memory

    /** Configured consistently: what no step changes. */
    ghost predicate Wired()
      reads this, scheduler, scheduler.all
    {
      && scheduler.Valid() && scheduler.config == config
      && runner.Valid() && runner.config == config && runner.net == net
      && nextSeqId == |scheduler.all|
    }

    ghost function View(): Engine
      requires Wired()
      reads this, scheduler, scheduler.all, scheduler.blockManager, scheduler.blockManager.blocks, runner.kCaches,
          runner.vCaches
    {
      Engine(scheduler.View(), runner.View())
    }

    /** The cache holds what it claims, and every request is on the path of its reference run. */
    ghost predicate Valid()
      reads this, scheduler, scheduler.all, scheduler.blockManager, scheduler.blockManager.blocks, runner.kCaches,
          runner.vCaches
    {
      && Wired()
      && Nearly(config, View().sys, led, kv)
      && Holds(net, View().mems, kv)
      && AllFaithful(net, config, View().sys)
    }

    constructor (config: Config, net: Net)
      ensures Valid() && this.config == config && this.net == net
      ensures View().sys == InitEngine(config, View().mems).sys
    {
      hide AtRest, Nearly, Holds, BlankMemory, Scheduler.Valid;
      this.config, this.net := config, net;
      scheduler := new Scheduler(config);
      runner := new ModelRunner(config, net);
      nextSeqId, led, kv := 0, map[], BlankMemory(config);
      new;
      InitOk(net, config, runner.View());
      RestIsSteppable(config, scheduler.View(), map[], kv);
    }

    /** `Sequence(...)`, numbered and queued. */
    method Enqueue(prompt: seq<Token>, maxTokens: nat, ignoreEos: bool)
      requires Wired() && prompt != [] && |prompt| + 1 <= config.maxLen
      modifies this`nextSeqId, scheduler
      ensures Wired()
      ensures View() == old(View()).(sys := Queued(old(View().sys),
                                                   Req(prompt, |prompt|, maxTokens, ignoreEos, 0, 0, [], Waiting)))
      ensures forall q :: q in scheduler.all ==> q in old(scheduler.all) || fresh(q)
    {
      hide BlockHashes;
      var q := new Sequence(config, nextSeqId, prompt, maxTokens, ignoreEos);
      var added := scheduler.AddSequence(q);
      nextSeqId := nextSeqId + 1;
    }

    /** `add_request`, with the checks that `SamplingParams`, `Sequence` and `add` make. */
    method AddPrompt(prompt: seq<Token>, maxTokens: int, ignoreEos: bool) returns (r: Result<()>)
      requires Valid()
      modifies this, scheduler
      ensures Valid()
      ensures var spec := AddRequest(config, old(View()), prompt, maxTokens, ignoreEos);
              (r.Ok? <==> spec.Ok?) && View() == if spec.Ok? then spec.value else old(View())
      ensures r.Err? ==> r.error == AssertionFailed
      ensures forall q :: q in scheduler.all ==> q in old(scheduler.all) || fresh(q)
    {
      hide Holds, Faithful, Nearly, AtRest, AllFaithful, Scheduler.Valid, ModelRunner.Valid;
      if maxTokens <= 0 || prompt == [] || |prompt| + 1 > config.maxLen {
        return Err(AssertionFailed);
      }
      ghost var e := View();
      AddOk(net, config, e, led, kv, prompt, maxTokens, ignoreEos);
      NewcomerFaithful(net, config, e.sys, AddRequest(config, e, prompt, maxTokens, ignoreEos).value.sys);
      Enqueue(prompt, maxTokens, ignoreEos);
      return Ok(());
    }

    /** Finished requests of the batch. */
    method CollectOutputs(qs: seq<Sequence>) returns (outputs: seq<(nat, seq<Token>)>)
      requires scheduler.Valid() && AllNamed(scheduler.all, qs)
      ensures outputs == Outputs(scheduler.View(), IdsOf(qs))
    {
      outputs := [];
      var k := |qs|;
      assert IdsOf(qs)[k..] == [];
      while k > 0
        invariant 0 <= k <= |qs| && outputs == Outputs(scheduler.View(), IdsOf(qs)[k..])
      {
        k := k - 1;
        var q := qs[k];
        assert Named(scheduler.all, q);
        assert IdsOf(qs)[k..] == [q.seqId] + IdsOf(qs)[k + 1..];
        if q.status == Finished {
          outputs := [(q.seqId, Slice(q.tokenIds, q.numPromptTokens, q.numTokens))] + outputs;
        }
      }
      assert IdsOf(qs)[0..] == IdsOf(qs);
    }

    /** `model_runner.run` on a scheduled batch. */
    method ComputeBatch(qs: seq<Sequence>, numPrefill: nat, ghost s0: Sys, ghost b: Batch, ghost led': Ledger)
      returns (r: Result<(seq<Token>, seq<nat>)>)
      requires scheduler.Valid() && AllNamed(scheduler.all, qs) && runner.Valid() && runner.config == config
               && runner.net == net
      requires Scheduled(config, s0, b, led', kv) && AtRest(config, s0, led, kv)
      requires b.sys == scheduler.View() && b.seqs == IdsOf(qs) && b.numPrefill == numPrefill
      modifies runner.kCaches, runner.vCaches
      ensures Computes(r, RunSpec(net, config, Rows(b.sys, b.seqs), numPrefill, old(runner.View())), runner.View(),
                       |qs|)
    {
      hide AtRest, Scheduled, RunSpec, Prepared, Scheduler.Valid, ModelRunner.Valid, AllNamed, Addressable;
      ScheduledAddressable(config, s0, b, led', led, kv);
      ScheduledRows(config, s0, b, led', kv);
      NamedRows(qs, b);
      RunRows(net, config, Rows(b.sys, b.seqs), b.numPrefill, runner.View());
      r := runner.Run(qs, numPrefill);
    }

    lemma NamedRows(qs: seq<Sequence>, b: Batch)
      requires scheduler.Valid() && AllNamed(scheduler.all, qs)
      requires b.sys == scheduler.View() && b.seqs == IdsOf(qs)
      ensures ViewsOf(qs) == Rows(b.sys, b.seqs)
      ensures forall k :: 0 <= k < |qs| ==> qs[k].Valid()
    {
      forall k: nat | k < |qs|
        ensures ViewsOf(qs)[k] == Rows(b.sys, b.seqs)[k] && qs[k].Valid()
      {
        assert Named(scheduler.all, qs[k]);
      }
    }

    /** Postprocess and collect. */
    method FinishStep(qs: seq<Sequence>, ts: seq<Token>, logits: seq<nat>) returns (r: Result<seq<(nat, seq<Token>)>>)
      requires scheduler.Valid() && scheduler.config == config && AllNamed(scheduler.all, qs)
               && scheduler.numScheduledPrefillSeqs <= |qs|
      requires forall k :: 0 <= k < |logits| ==> logits[k] < |qs|
      modifies scheduler, scheduler.blockManager, scheduler.blockManager.blocks, scheduler.all
      ensures Finishes(r, Postprocess(config, Batch(old(scheduler.View()), IdsOf(qs),
                                                    old(scheduler.numScheduledPrefillSeqs)),
                                      Picked(IdsOf(qs), logits), ts), scheduler.View(), IdsOf(qs))
      ensures r.Ok? ==> scheduler.Valid() && scheduler.all == old(scheduler.all)
    {
      hide Postprocess, Outputs;
      assert PickIds(qs, logits) == Picked(IdsOf(qs), logits);
      var _ :- scheduler.PostprocessBatch(qs, ts, logits);
      var outputs := CollectOutputs(qs);
      return Ok(outputs);
    }

    /** `step`, once the batch is scheduled. */
    method RunScheduled(qs: seq<Sequence>, numPrefill: nat, ghost s0: Sys, ghost b: Batch, ghost led': Ledger)
      returns (r: Result<seq<(nat, seq<Token>)>>)
      requires scheduler.Valid() && AllNamed(scheduler.all, qs) && scheduler.config == config
      requires runner.Valid() && runner.config == config && runner.net == net
      requires Scheduled(config, s0, b, led', kv) && AtRest(config, s0, led, kv)
      requires b == Batch(scheduler.View(), IdsOf(qs), numPrefill) && numPrefill == scheduler.numScheduledPrefillSeqs
      modifies scheduler, scheduler.blockManager, scheduler.blockManager.blocks, scheduler.all, runner.kCaches,
          runner.vCaches
      ensures RunsTo(r, BatchParts(net, config, b, old(runner.View())), scheduler.View(), runner.View())
      ensures r.Ok? ==> scheduler.Valid() && scheduler.all == old(scheduler.all)
    {
      hide AtRest, Scheduled, Postprocess, RunSpec, BatchParts, Outputs, Picked, Rows, IdsOf, AllNamed, Scheduler.Valid,
           ModelRunner.Valid;
      ScheduledRows(config, s0, b, led', kv);
      PartsUnfold(net, config, b, runner.View());
      var ran :- ComputeBatch(qs, numPrefill, s0, b, led');
      r := FinishStep(qs, ran.0, ran.1);
    }

    /** `step`: schedule, run, postprocess, collect. */
    method RunStep() returns (r: Result<seq<(nat, seq<Token>)>>)
      requires scheduler.Valid() && scheduler.config == config && runner.Valid() && runner.config == config
               && runner.net == net
      requires Nearly(config, scheduler.View(), led, kv)
      modifies scheduler, scheduler.blockManager, scheduler.blockManager.blocks, scheduler.all, runner.kCaches,
          runner.vCaches
      ensures RunsTo(r, StepParts(net, config, old(scheduler.View()), old(runner.View())), scheduler.View(),
                     runner.View())
      ensures r.Ok? ==> scheduler.Valid() && scheduler.all == old(scheduler.all)
    {
      hide Nearly, AtRest, Cut, Scheduled, Schedule, BatchParts, Outputs, IdsOf, AllNamed, Scheduler.Valid,
           ModelRunner.Valid, AfterPreemption;
      ghost var s := scheduler.View();
      ghost var led' := ScheduleGives(config, s, led, kv);
      var qs :- scheduler.ScheduleBatch();
      ghost var b := Schedule(config, s).value;
      r := RunScheduled(qs, scheduler.numScheduledPrefillSeqs, AfterPreemption(config, s), b, led');
    }

    /** `step`. It raises for lack of budget, or fails an assertion if a cut request is about to be decoded, and
        otherwise gives back exactly the requests that it finished. */
    method TakeStep() returns (r: Result<seq<(nat, seq<Token>)>>)
      requires Valid()
      modifies this`led, this`kv, scheduler, scheduler.blockManager, scheduler.blockManager.blocks, scheduler.all,
          runner.kCaches, runner.vCaches
      ensures r.Err? ==> Step(net, config, old(View())) == Err(r.error)
      ensures r.Err? ==> if old(SafeTick(config, View().sys)) then r.error == PromptTooLong || r.error == NoProgress
              else r.error == AssertionFailed
      ensures r.Ok? ==> Valid() && scheduler.all == old(scheduler.all) && Step(net, config, old(View())) == Ok(View())
      ensures r.Ok? ==> StepFinished(net, config, old(View().sys), View().sys, r.value)
    {
      hide Nearly, AtRest, Cut, Holds, AllFaithful, Schedule, StepParts, Step, SafeTick, SafeStep, StepFinished,
           Scheduler.Valid, ModelRunner.Valid;
      ghost var e := View();
      StepInParts(net, config, e);
      ghost var led', kv' := StepKeeps(net, config, e, led, kv);
      var outputs :- RunStep();
      StepFinishes(net, config, e, led, kv);
      led, kv := led', kv';
      return Ok(outputs);
    }

    /** The requests of a call of `generate`, one after the other. */
    method AddPrompts(prompts: seq<Prompt>) returns (r: Result<()>)
      requires Valid()
      modifies this, scheduler
      ensures Valid()
      ensures var spec := Added(config, old(View()), prompts);
              (r.Ok? <==> spec.Ok?) && (r.Ok? ==> View() == spec.value)
      ensures r.Err? ==> r.error == AssertionFailed
      ensures forall q :: q in scheduler.all ==> q in old(scheduler.all) || fresh(q)
    {
      hide Nearly, Holds, AllFaithful, AddRequest, Scheduler.Valid, ModelRunner.Valid;
      var k := 0;
      assert prompts[0..] == prompts;
      while k < |prompts|
        invariant 0 <= k <= |prompts| && Valid()
        invariant Added(config, View(), prompts[k..]) == Added(config, old(View()), prompts)
        invariant forall q :: q in scheduler.all ==> q in old(scheduler.all) || fresh(q)
      {
        var p := prompts[k];
        assert prompts[k..][0] == p && prompts[k..][1..] == prompts[k + 1..];
        var _ :- AddPrompt(p.tokens, p.maxTokens, p.ignoreEos);
        k := k + 1;
      }
      assert prompts[k..] == [];
      return Ok(());
    }

    /** `while not self.is_finished(): step`; what each step finishes is collected by `seq_id`. */
    method RunToEnd(ghost n: nat) returns (r: Result<map<nat, seq<Token>>>)
      requires Valid() && EndsWithin(net, config, View(), n)
      modifies this`led, this`kv, scheduler, scheduler.blockManager, scheduler.blockManager.blocks, scheduler.all,
          runner.kCaches, runner.vCaches
      ensures r.Err? ==> Generate(net, config, old(View()), n) == Err(r.error)
      ensures r.Ok? ==> Valid() && Generate(net, config, old(View()), n) == Ok(View()) && View().sys.IsFinished()
      ensures r.Ok? ==> Since(old(View().sys), View().sys) && Collected(old(View().sys), View().sys, r.value)
      ensures r.Ok? ==> scheduler.all == old(scheduler.all)
    {
      hide Nearly, Holds, AllFaithful, Step, SafeTick, StepFinished, Since, Collected, Scheduler.Valid,
           ModelRunner.Valid;
      ghost var s, left := View().sys, n;
      var outputs: map<nat, seq<Token>> := map[];
      NothingSince(s);
      while true
        invariant Valid() && scheduler.all == old(scheduler.all)
        invariant EndsWithin(net, config, View(), left)
        invariant Generate(net, config, View(), left) == Generate(net, config, old(View()), n)
        invariant Since(s, View().sys) && Collected(s, View().sys, outputs)
        decreases left
      {
        var done := scheduler.IsFinished();
        if done {
          return Ok(outputs);
        }
        ghost var e := View();
        var stepped :- TakeStep();
        StepCollected(net, config, s, e.sys, View().sys, outputs, stepped);
        outputs := Record(outputs, stepped);
        left := left - 1;
      }
    }

    /** `generate`, whenever its loop ends at all: unless it raises, each request that was waiting for its completion
        gets exactly the tokens that decoding it alone would give, and it raises a failed assertion exactly if a tick
        was not safe. `n` is any bound on the number of steps; `EndsInTime` gives one. */
    method GenerateAll(prompts: seq<Prompt>, ghost n: nat) returns (r: Result<seq<seq<Token>>>)
      requires Valid()
      requires var added := Added(config, View(), prompts);
               added.Ok? ==> EndsWithin(net, config, added.value, n)
      modifies this, scheduler, scheduler.blockManager, scheduler.blockManager.blocks, scheduler.all, runner.kCaches,
          runner.vCaches
      ensures Added(config, old(View()), prompts).Err? ==> r == Err(AssertionFailed)
      ensures var added := Added(config, old(View()), prompts);
              added.Ok? ==>
                && (r.Ok? ==> Valid() && View().sys.IsFinished() && r.value == References(net, config, added.value.sys))
                && (r.Ok? ==> Answered(net, config, added.value.sys, r.value))
                && (r == Err(AssertionFailed) <==> !SafeGenerate(net, config, added.value, n))
                && (r.Err? && SafeGenerate(net, config, added.value, n) ==>
                      !Ample(config) && (r.error == PromptTooLong || r.error == NoProgress))
    {
      hide Nearly, Holds, AllFaithful, Since, Collected, References, Answered, Scheduler.Valid, ModelRunner.Valid,
           SafeGenerate,
           Added, Ample, EndsWithin, Generate;
      var accepted := AddPrompts(prompts);
      if accepted.Err? {
        return Err(accepted.error);
      }
      assert forall i :: 0 <= i < |scheduler.all| ==> scheduler.all[i] in old(scheduler.all) || fresh(scheduler.all[i]);
      ghost var e, led0, kv0 := View(), led, kv;
      FaithfulPrompts(net, config, e.sys);
      GenerateExact(net, config, e, led, kv, n);
      var outputs :- RunToEnd(n);
      AllCollected(net, config, e.sys, View().sys, led, kv, outputs);
      ReferencesRight(net, config, e.sys, led0, kv0);
      var sorted := SortOutputs(outputs, nextSeqId);
      return Ok(sorted);
    }
  }

  /** Steps that are enough, if any number of them is. */
  function EnoughSteps(c: Config, s: Sys): nat {
    Max(Measure(c, s), UncutMeasure(c, s)) + 1 + DropBound(c)
  }

  /** What makes the loop end. */
  ghost predicate Ends(net: Net, c: Config, e: Engine) {
    || Ample(c)
    || NobodyOverfull(net, c, e.sys)
    || (!Cut(e.sys) && (!c.chunked || (HasRoom(c) && PromptsOnly(e.sys))
                        || UncutGenerate(net, c, e, EnoughSteps(c, e.sys))))
  }

  /** It then ends within these steps, and if it does not end within these steps it never does. */
  lemma EndsInTime(net: Net, c: Config, e: Engine, led: Ledger, kv: Memory, m: nat)
    requires Nearly(c, e.sys, led, kv) && Holds(net, e.mems, kv) && AllFaithful(net, c, e.sys)
    ensures Ends(net, c, e) || EndsWithin(net, c, e, m) ==> EndsWithin(net, c, e, EnoughSteps(c, e.sys))
  {
    hide Nearly, Cut, Holds, AllFaithful, EndsWithin, UncutGenerate, Measure, UncutMeasure, HasRoom, PromptsOnly, Ample,
         NobodyOverfull, DropBound;
    var n := EnoughSteps(c, e.sys);
    if EndsWithin(net, c, e, m) {
      EndsIfEver(net, c, e, led, kv, m);
      EndsLater(net, c, e, Measure(c, e.sys) + 1 + DropBound(c), n);
    } else if Ample(c) {
      AmpleEnds(net, c, e, led, kv, n);
    } else if NobodyOverfull(net, c, e.sys) {
      FittingEnds(net, c, e, led, kv);
      EndsLater(net, c, e, Measure(c, e.sys) + 1 + DropBound(c), n);
    } else if Ends(net, c, e) {
      if !c.chunked {
        UnchunkedGenerate(net, c, e, led, kv, n);
      } else if HasRoom(c) && PromptsOnly(e.sys) {
        RoomyGenerate(net, c, e, led, kv, n);
      }
      UncutEnds(net, c, e, led, kv, n);
    }
  }

  /** `for seq_id, token_ids in output: outputs[seq_id] = token_ids` */
  method Record(outputs: map<nat, seq<Token>>, finished: seq<(nat, seq<Token>)>) returns (after: map<nat, seq<Token>>)
    ensures after == Recorded(outputs, finished)
  {
    after := outputs;
    var k := 0;
    while k < |finished|
      invariant 0 <= k <= |finished| && after == Recorded(outputs, finished[..k])
    {
      assert finished[..k + 1][..k] == finished[..k];
      after := after[finished[k].0 := finished[k].1];
      k := k + 1;
    }
    assert finished[..k] == finished;
  }

  /** `[outputs[seq_id] for seq_id in sorted(outputs.keys())]`, for ids below `n`. */
  method SortOutputs(outputs: map<nat, seq<Token>>, n: nat) returns (sorted: seq<seq<Token>>)
    ensures sorted == Sorted(outputs, n)
  {
    sorted := [];
    var id := 0;
    while id < n
      invariant 0 <= id <= n && sorted == Sorted(outputs, id)
    {
      if id in outputs {
        sorted := sorted + [outputs[id]];
      }
      id := id + 1;
    }
  }

  datatype Prompt = Prompt(tokens: seq<Token>, maxTokens: int, ignoreEos: bool)

  function Added(c: Config, e: Engine, prompts: seq<Prompt>): Result<Engine>
    decreases |prompts|
  {
    if prompts == [] then Ok(e)
    else
      var e' :- AddRequest(c, e, prompts[0].tokens, prompts[0].maxTokens, prompts[0].ignoreEos);
      Added(c, e', prompts[1..])
  }

  /** The same requests with the same prompts; what was finished stays as it is. */
  ghost predicate Since(s: Sys, s': Sys) {
    && |s'.reqs| == |s.reqs|
    && forall id: nat {:trigger s'.reqs[id]} :: id < |s.reqs| ==> Later(s.reqs[id], s'.reqs[id])
  }

  ghost predicate Later(r: Req, r': Req) {
    && r'.numPrompt == r.numPrompt && r'.maxTokens == r.maxTokens && r'.ignoreEos == r.ignoreEos
    && r.tokens <= r'.tokens
    && (r.status == Finished ==> r'.status == Finished && r'.tokens == r.tokens)
  }

  /** Exactly what has been finished since, under its `seq_id`. */
  ghost predicate Collected(s: Sys, s': Sys, outputs: map<nat, seq<Token>>) {
    && |s'.reqs| == |s.reqs|
    && (forall id: nat :: id in outputs <==>
         id < |s.reqs| && s.reqs[id].status != Finished && s'.reqs[id].status == Finished)
    && (forall id: nat :: id in outputs ==> outputs[id] == Completion(s'.reqs[id]))
  }

  lemma NothingSince(s: Sys)
    ensures Since(s, s) && Collected(s, s, map[])
  {
  }

  function Recorded(outputs: map<nat, seq<Token>>, finished: seq<(nat, seq<Token>)>): map<nat, seq<Token>> {
    if finished == [] then outputs else Recorded(outputs, Front(finished))[Back(finished).0 := Back(finished).1]
  }

  lemma {:induction false} RecordedIs(outputs: map<nat, seq<Token>>, finished: seq<(nat, seq<Token>)>,
                                      value: nat -> seq<Token>)
    requires forall o :: o in finished ==> o.1 == value(o.0)
    ensures forall id: nat :: id in Recorded(outputs, finished) <==> id in outputs || exists o ::
            o in finished && o.0 == id
    ensures forall id: nat :: id in Recorded(outputs, finished) ==>
              Recorded(outputs, finished)[id] == if exists o ::
                  o in finished && o.0 == id then value(id) else outputs[id]
  {
    if finished != [] {
      RecordedIs(outputs, Front(finished), value);
      assert finished == Front(finished) + [Back(finished)];
    }
  }

  /** One request, through one more step. */
  lemma StepLater(net: Net, c: Config, s: Sys, s1: Sys, s2: Sys, finished: seq<(nat, seq<Token>)>, id: nat)
    requires Since(s, s1) && StepFinished(net, c, s1, s2, finished) && id < |s.reqs|
    ensures id < |s2.reqs| && id < |s1.reqs| && Later(s.reqs[id], s2.reqs[id])
    ensures s1.reqs[id].status == Finished ==>
              Completion(s2.reqs[id]) == Completion(s1.reqs[id]) && s2.reqs[id].status == Finished
    ensures s2.reqs[id].status == Finished && s1.reqs[id].status != Finished <==> exists o :: o in finished && o.0 == id
  {
    hide NextToken, Stops;
    assert Later(s.reqs[id], s1.reqs[id]);
    assert TokenStep(net, c, s1.reqs[id], s2.reqs[id]);
    if s2.reqs[id].status == Finished && s1.reqs[id].status != Finished {
      assert (id, Completion(s2.reqs[id])) in finished;
    }
  }

  /** One more step is collected. */
  lemma StepCollected(net: Net, c: Config, s: Sys, s1: Sys, s2: Sys, outputs: map<nat, seq<Token>>,
                      finished: seq<(nat, seq<Token>)>)
    requires Since(s, s1) && Collected(s, s1, outputs) && StepFinished(net, c, s1, s2, finished)
    ensures Since(s, s2) && Collected(s, s2, Recorded(outputs, finished))
  {
    hide TokenStep, Completion, Later, Recorded;
    var value := (id: nat) => Completion(s2.Get(id));
    RecordedIs(outputs, finished, value);
    forall id: nat | id < |s.reqs|
      ensures Later(s.reqs[id], s2.reqs[id])
    {
      StepLater(net, c, s, s1, s2, finished, id);
    }
    var after := Recorded(outputs, finished);
    forall id: nat
      ensures id in after <==> id < |s.reqs| && s.reqs[id].status != Finished && s2.reqs[id].status == Finished
      ensures id in after ==> after[id] == Completion(s2.reqs[id])
    {
      if id < |s.reqs| {
        StepLater(net, c, s, s1, s2, finished, id);
        FinishedStays(s.reqs[id], s1.reqs[id]) by { assert Later(s.reqs[id], s1.reqs[id]); }
      }
    }
  }

  lemma FinishedStays(r: Req, r': Req)
    requires Later(r, r')
    ensures r.status == Finished ==> r'.status == Finished
  {
  }

  /** Values in the order of their keys, up to `n`. */
  function Sorted(outputs: map<nat, seq<Token>>, n: nat): seq<seq<Token>> {
    if n == 0 then [] else Sorted(outputs, n - 1) + if n - 1 in outputs then [outputs[n - 1]] else []
  }

  /** The completion of a request, decoded alone. */
  function Reference(net: Net, c: Config, r: Req): seq<Token> {
    if r.numPrompt == 0 || r.numPrompt > |r.tokens| then []
    else
      var t := Decode(net, c, r, r.tokens[..r.numPrompt]);
      Slice(t, r.numPrompt, |t|)
  }

  /** The reference completions of all unfinished requests among the first `n`, in order of arrival. */
  function ReferencesUpTo(net: Net, c: Config, s: Sys, n: nat): seq<seq<Token>> {
    if n == 0 then []
    else ReferencesUpTo(net, c, s, n - 1) + if s.Get(n - 1).status != Finished then [Reference(net, c, s.Get(n - 1))]
        else []
  }

  function References(net: Net, c: Config, s: Sys): seq<seq<Token>> {
    ReferencesUpTo(net, c, s, |s.reqs|)
  }

  /** The unfinished requests among the first `n`, in order of arrival. */
  function OpenUpTo(s: Sys, n: nat): seq<nat> {
    if n == 0 then [] else OpenUpTo(s, n - 1) + if s.Get(n - 1).status != Finished then [n - 1] else []
  }

  /** A completion: what the network says after the prompt, token by token, up to the first reason to stop. */
  ghost predicate Completes(net: Net, c: Config, r: Req, o: seq<Token>) {
    r.numPrompt <= |r.tokens| && WholeRun(net, c, r, r.numPrompt, r.tokens[..r.numPrompt] + o)
  }

  /** One completion for each unfinished request, in order of arrival. */
  ghost predicate AnsweredUpTo(net: Net, c: Config, s: Sys, n: nat, outs: seq<seq<Token>>) {
    && |outs| == |OpenUpTo(s, n)|
    && forall k: nat :: k < |outs| ==> Completes(net, c, s.Get(OpenUpTo(s, n)[k]), outs[k])
  }

  ghost predicate Answered(net: Net, c: Config, s: Sys, outs: seq<seq<Token>>) {
    AnsweredUpTo(net, c, s, |s.reqs|, outs)
  }

  lemma ReferenceCompletes(net: Net, c: Config, r: Req)
    requires ReqLimits(c, r) && r.status != Finished
    ensures Completes(net, c, r, Reference(net, c, r))
  {
    hide Decode, WholeRun;
    var p := r.tokens[..r.numPrompt];
    DecodeWhole(net, c, r, p);
    var t := Decode(net, c, r, p);
    assert |t| > |p| by { WholeLonger(net, c, r, |p|, t); }
    assert p + Reference(net, c, r) == t;
  }

  lemma WholeLonger(net: Net, c: Config, r: Req, n: nat, t: seq<Token>)
    requires WholeRun(net, c, r, n, t)
    ensures n < |t|
  {
  }

  lemma {:induction false} ReferencesRightUpTo(net: Net, c: Config, s: Sys, n: nat)
    requires n <= |s.reqs| && forall id: nat :: id < |s.reqs| ==> ReqLimits(c, s.reqs[id])
    ensures AnsweredUpTo(net, c, s, n, ReferencesUpTo(net, c, s, n))
  {
    hide Reference, Completes, ReqLimits;
    if n > 0 {
      ReferencesRightUpTo(net, c, s, n - 1);
      if s.Get(n - 1).status != Finished {
        ReferenceCompletes(net, c, s.Get(n - 1));
      }
    }
  }

  lemma ReferencesRight(net: Net, c: Config, s: Sys, led: Ledger, kv: Memory)
    requires Nearly(c, s, led, kv)
    ensures Answered(net, c, s, References(net, c, s))
  {
    hide Nearly, AnsweredUpTo, ReferencesUpTo;
    RestLimits(c, s, led, kv);
    ReferencesRightUpTo(net, c, s, |s.reqs|);
  }

  lemma FaithfulPrompts(net: Net, c: Config, s: Sys)
    requires AllFaithful(net, c, s)
    ensures forall id: nat :: id < |s.reqs| ==> 1 <= s.reqs[id].numPrompt <= |s.reqs[id].tokens|
  {
    hide Decode;
    forall id: nat | id < |s.reqs|
      ensures 1 <= s.reqs[id].numPrompt <= |s.reqs[id].tokens|
    {
      assert Faithful(net, c, s.reqs[id]);
    }
  }

  lemma SameReference(net: Net, c: Config, r: Req, r': Req)
    requires Later(r, r') && 1 <= r.numPrompt <= |r.tokens|
    requires r'.tokens == Decode(net, c, r', r'.tokens[..r'.numPrompt])
    ensures Completion(r') == Reference(net, c, r)
  {
    assert r'.tokens[..r.numPrompt] == r.tokens[..r.numPrompt];
    DecodeSame(net, c, r, r', r.tokens[..r.numPrompt]);
  }

  lemma {:induction false} SortedReferences(net: Net, c: Config, s: Sys, s': Sys, outputs: map<nat, seq<Token>>, n: nat)
    requires n <= |s.reqs| && Collected(s, s', outputs)
    requires forall id: nat :: id < |s.reqs| ==> s'.reqs[id].status == Finished
    requires forall id: nat :: id in outputs ==> id < |s.reqs| && outputs[id] == Reference(net, c, s.reqs[id])
    ensures Sorted(outputs, n) == ReferencesUpTo(net, c, s, n)
  {
    hide Reference;
    if n > 0 {
      SortedReferences(net, c, s, s', outputs, n - 1);
    }
  }

  /** When the engine is empty, what was collected are the reference completions. */
  lemma AllCollected(net: Net, c: Config, s: Sys, s': Sys, led: Ledger, kv: Memory, outputs: map<nat, seq<Token>>)
    requires Nearly(c, s', led, kv) && AllFaithful(net, c, s') && s'.IsFinished()
    requires Since(s, s') && Collected(s, s', outputs)
    requires forall id: nat :: id < |s.reqs| ==> 1 <= s.reqs[id].numPrompt <= |s.reqs[id].tokens|
    ensures Sorted(outputs, |s.reqs|) == References(net, c, s)
  {
    hide Nearly, Decode, Reference, Completion;
    FinishedAllDone(net, c, s', led, kv);
    forall id: nat | id in outputs
      ensures outputs[id] == Reference(net, c, s.reqs[id])
    {
      assert Later(s.reqs[id], s'.reqs[id]);
      SameReference(net, c, s.reqs[id], s'.reqs[id]);
    }
    SortedReferences(net, c, s, s', outputs, |s.reqs|);
  }

  function Queued(s: Sys, r: Req): Sys {
    s.(reqs := s.reqs + [r], waiting := s.waiting + [|s.reqs|])
  }

  /** The outputs are exactly the requests this step finished, and nobody's prompt or finished tokens changed. */
  ghost predicate StepFinished(net: Net, c: Config, s: Sys, s': Sys, outputs: seq<(nat, seq<Token>)>) {
    && |s'.reqs| == |s.reqs|
    && (forall o :: o in outputs <==>
          o.0 < |s.reqs| && s'.reqs[o.0].status == Finished && s.reqs[o.0].status != Finished
              && o.1 == Completion(s'.reqs[o.0]))
    && (forall id: nat {:trigger s'.reqs[id]} :: id < |s.reqs| ==> TokenStep(net, c, s.reqs[id], s'.reqs[id]))
  }

  lemma StepFinishes(net: Net, c: Config, e: Engine, led: Ledger, kv: Memory)
    requires Nearly(c, e.sys, led, kv) && Holds(net, e.mems, kv) && Step(net, c, e).Ok?
    ensures Schedule(c, e.sys).Ok?
    ensures StepFinished(net, c, e.sys, Step(net, c, e).value.sys,
                         Outputs(Step(net, c, e).value.sys, Schedule(c, e.sys).value.seqs))
  {
    hide Nearly, AtRest, Cut, DecodeFits, Holds, Step, Schedule, Ended, TokenStep;
    StepNeedsSchedule(net, c, e);
    var led0 := ScheduleGives(c, e.sys, led, kv);
    var led', kv', ts := StepOk(net, c, e, led, kv);
    var s', b := Step(net, c, e).value.sys, Schedule(c, e.sys).value;
    var s0 := AfterPreemption(c, e.sys);
    PreemptionKeepsRequests(c, e.sys, led, kv);
    OutputsAre(s', b.seqs);
    EndedRows(c, s0, b, led', led, kv, ts, s');
    forall id: nat | id < |s'.reqs|
      ensures s'.reqs[id].status == Finished && e.sys.reqs[id].status != Finished
              <==> id in b.seqs && s'.reqs[id].status == Finished
    {
      NewlyFinished(c, e.sys, s0, b, led', led, kv, ts, s', id);
    }
  }

  lemma EndedRows(c: Config, s0: Sys, b: Batch, led: Ledger, led0: Ledger, kv: Memory, ts: seq<Token>, s: Sys)
    requires Ended(c, s0, b, led, led0, kv, ts, s)
    ensures forall id :: id in b.seqs ==> id < |s.reqs|
  {
    hide Consistent, FinalReq, AtRest;
  }

  ghost predicate Finishes(r: Result<seq<(nat, seq<Token>)>>, spec: Result<Sys>, s: Sys, ids: seq<nat>) {
    if spec.Ok? then r == Ok(Outputs(s, ids)) && s == spec.value else r == Err(spec.error)
  }

  lemma PartsUnfold(net: Net, c: Config, b: Batch, mems: Layers)
    requires b.numPrefill <= |b.seqs|
    ensures var run := RunSpec(net, c, Rows(b.sys, b.seqs), b.numPrefill, mems);
            if run.Err? then BatchParts(net, c, b, mems) == Err(run.error)
            else
              var post := Postprocess(c, b, Picked(b.seqs, run.value.2), run.value.1);
              if post.Err? then BatchParts(net, c, b, mems) == Err(post.error)
              else BatchParts(net, c, b, mems) == Ok((post.value, run.value.0, b.seqs))
  {
    hide RunSpec, Postprocess;
  }

  /** The runner raised what its specification raises, or left the memory and returned the tokens that it computes. */
  ghost predicate Computes(r: Result<(seq<Token>, seq<nat>)>, spec: Result<(Layers, seq<Token>, seq<nat>)>,
                           mems: Layers, n: nat) {
    if spec.Ok? then
      r == Ok((spec.value.1, spec.value.2)) && mems == spec.value.0
      && forall k :: 0 <= k < |spec.value.2| ==> spec.value.2[k] < n
    else r == Err(spec.error)
  }

  ghost predicate RunsTo(r: Result<seq<(nat, seq<Token>)>>, spec: Result<(Sys, Layers, seq<nat>)>, s: Sys,
                         mems: Layers) {
    if spec.Ok? then r == Ok(Outputs(s, spec.value.2)) && s == spec.value.0 && mems == spec.value.1
        else r == Err(spec.error)
  }

  /** A step as its three parts, with the batch it ran. */
  function StepParts(net: Net, c: Config, s: Sys, mems: Layers): Result<(Sys, Layers, seq<nat>)> {
    var b :- Schedule(c, s);
    BatchParts(net, c, b, mems)
  }

  /** The part of a step after `schedule`. */
  function BatchParts(net: Net, c: Config, b: Batch, mems: Layers): Result<(Sys, Layers, seq<nat>)> {
    var run :- RunSpec(net, c, Rows(b.sys, b.seqs), b.numPrefill, mems);
    if b.numPrefill > |b.seqs| then Err(AssertionFailed)
    else
      var post :- Postprocess(c, b, Picked(b.seqs, run.2), run.1);
      Ok((post, run.0, b.seqs))
  }

  lemma ScheduledRows(c: Config, s0: Sys, b: Batch, led: Ledger, kv: Memory)
    requires Scheduled(c, s0, b, led, kv)
    ensures forall k :: 0 <= k < |b.seqs| ==> b.seqs[k] < |b.sys.reqs|
    ensures b.numPrefill <= |b.seqs|
    ensures Rows(b.sys, b.seqs) == RowsOf(b.sys.reqs, b.seqs)
  {
    hide Consistent;
  }

  /** A step is a schedule, a run and a postprocess. */
  lemma StepInParts(net: Net, c: Config, e: Engine)
    ensures var parts := StepParts(net, c, e.sys, e.mems);
            && Step(net, c, e) == (if parts.Err? then Err(parts.error) else Ok(Engine(parts.value.0, parts.value.1)))
            && (parts.Ok? ==> Schedule(c, e.sys).Ok? && parts.value.2 == Schedule(c, e.sys).value.seqs)
  {
    hide Schedule, Prepared, RunKernel, Postprocess;
  }

  lemma {:induction false} LogitsRowsBelow(rs: seq<Req>)
    ensures forall k :: 0 <= k < |LogitsRows(rs)| ==> LogitsRows(rs)[k] < |rs|
  {
    if rs != [] {
      LogitsRowsBelow(Front(rs));
    }
  }

  lemma RunRows(net: Net, c: Config, rs: seq<Req>, n: int, mems: Layers)
    ensures var spec := RunSpec(net, c, rs, n, mems);
            spec.Ok? ==> forall k :: 0 <= k < |spec.value.2| ==> spec.value.2[k] < |rs|
  {
    hide RunKernel;
    LogitsRowsBelow(rs);
  }
}
