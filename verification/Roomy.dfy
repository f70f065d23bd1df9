/** With room for every live request nobody is preempted, and then chunked prefill is safe as well. */
module Roomy {
  import opened Arith
  import opened Seqs
  import opened Requests
  import opened Pages
  import opened CacheInvariant
  import opened KvMemory
  import opened Growth
  import opened Boundary
  import opened Scheduling
  import opened SchedulerState
  import opened Prefill
  import opened Steps
  import opened Liveness
  import opened Postprocessing
  import opened Forward
  import opened Engine
  import opened Runs
  import opened Termination

  /** Pages of a request of maximal length. */
  function MaxPages(c: Config): pos {
    Max(Ceil(Max(c.maxLen - 1, 0), c.B), 1)
  }

  /** The pool holds `max_num_seqs` requests of maximal length, and a step has a token for each of them. */
  predicate HasRoom(c: Config) {
    c.maxSeqs <= c.maxBatch && Start(c.maxSeqs, MaxPages(c)) <= c.numBlocks
  }

  // ---------------------------------------------------------------- nobody is preempted

  ghost function PagesOf(reqs: seq<Req>, ids: seq<nat>): set<nat> {
    if ids == [] then {} else PagesOf(reqs, ids[1..]) + if ids[0] < |reqs| then ToSet(reqs[ids[0]].table) else {}
  }

  function TablesOf(reqs: seq<Req>, ids: seq<nat>): nat {
    if ids == [] then 0 else TablesOf(reqs, ids[1..]) + if ids[0] < |reqs| then |reqs[ids[0]].table| else 0
  }

  lemma {:induction false} TableCard(table: seq<nat>)
    ensures |ToSet(table)| <= |table|
  {
    if table != [] {
      var front := table[..|table| - 1];
      TableCard(front);
      assert table == front + [table[|table| - 1]];
      assert ToSet(table) == ToSet(front) + {table[|table| - 1]};
    }
  }

  lemma {:induction false} UnionBound(reqs: seq<Req>, ids: seq<nat>)
    ensures |PagesOf(reqs, ids)| <= TablesOf(reqs, ids)
    ensures forall k, b :: 0 <= k < |ids| && ids[k] < |reqs| && b in reqs[ids[k]].table ==> b in PagesOf(reqs, ids)
  {
    if ids != [] {
      UnionBound(reqs, ids[1..]);
      if ids[0] < |reqs| {
        TableCard(reqs[ids[0]].table);
      }
    }
  }

  function LiveIds(s: Sys): seq<nat> {
    s.running + if s.chunked.Some? then [s.chunked.value] else []
  }

  lemma PageInUse(c: Config, s: Sys, led: Ledger, kv: Memory, b: nat)
    requires AtRest(c, s, led, kv) && b < |s.pool.pages| && b !in s.pool.free
    ensures b in PagesOf(s.reqs, LiveIds(s))
  {
    hide Quiescent;
    RestWorld(c, s, led, kv);
    assert RefOk(s.pool, s.reqs, b);
    assert |Users(s.reqs, b)| > 0;
    var id :| id in Users(s.reqs, b);
    assert Placed(s, id) && Progress(s, id);
    UnionBound(s.reqs, LiveIds(s));
    if id in s.running {
      var k :| 0 <= k < |s.running| && s.running[k] == id;
      assert LiveIds(s)[k] == id;
    } else {
      assert LiveIds(s)[|s.running|] == id;
    }
  }

  /** What is not free is in the tables of live requests. */
  lemma FreeAtLeast(c: Config, s: Sys, led: Ledger, kv: Memory)
    requires AtRest(c, s, led, kv)
    ensures |s.pool.free| + TablesOf(s.reqs, LiveIds(s)) >= c.numBlocks
  {
    hide Quiescent;
    RestWorld(c, s, led, kv);
    RangeCard(c.numBlocks);
    NoDupCard(s.pool.free);
    UnionBound(s.reqs, LiveIds(s));
    forall b: nat | b in Range(c.numBlocks)
      ensures b in ToSet(s.pool.free) + PagesOf(s.reqs, LiveIds(s))
    {
      if b !in s.pool.free {
        PageInUse(c, s, led, kv, b);
      }
    }
    SubsetCard(Range(c.numBlocks), ToSet(s.pool.free) + PagesOf(s.reqs, LiveIds(s)));
  }

  lemma LiveTable(c: Config, s: Sys, led: Ledger, kv: Memory, id: nat)
    requires AtRest(c, s, led, kv) && id < |s.reqs| && s.reqs[id].status == Running
    ensures |s.reqs[id].table| <= MaxPages(c)
    ensures id in s.running ==> |s.reqs[id].table| + NumBlocksToAppend(c, s.reqs[id], 1) <= MaxPages(c)
  {
    var r := s.reqs[id];
    assert Placed(s, id) && Progress(s, id) && ReqLimits(c, s.reqs[id]);
    assert Aligned(c, s.pool.pages, s.reqs[id]);
    CeilMono(r.cached, c.maxLen - 1, c.B);
    CeilMono(r.cached + 1, c.maxLen - 1, c.B);
  }

  lemma {:induction false} RunningBound(c: Config, s: Sys, led: Ledger, kv: Memory, ids: seq<nat>)
    requires AtRest(c, s, led, kv)
    requires forall k :: 0 <= k < |ids| ==> ids[k] < |s.reqs| && ids[k] in s.running && s.reqs[ids[k]].status == Running
    ensures SumAppend(c, s.reqs, ids) + TablesOf(s.reqs, ids) <= Start(|ids|, MaxPages(c))
  {
    hide AtRest, MaxPages, NumBlocksToAppend;
    if ids != [] {
      RunningBound(c, s, led, kv, ids[1..]);
      LiveTable(c, s, led, kv, ids[0]);
    }
  }

  lemma {:induction false} TablesAppend(reqs: seq<Req>, a: seq<nat>, id: nat)
    ensures TablesOf(reqs, a + [id]) == TablesOf(reqs, a) + if id < |reqs| then |reqs[id].table| else 0
  {
    if a == [] {
      assert [] + [id] == [id] && [id][1..] == [];
    } else {
      TablesAppend(reqs, a[1..], id);
      assert (a + [id])[1..] == a[1..] + [id];
    }
  }

  /** Decode always fits, so preemption does nothing. */
  lemma NobodyPreempted(c: Config, s: Sys, led: Ledger, kv: Memory)
    requires AtRest(c, s, led, kv) && HasRoom(c)
    ensures DecodeFits(c, s) && PreemptTail(c, s) == Ok(s)
  {
    hide Quiescent, MaxPages;
    forall k | 0 <= k < |s.running|
      ensures s.running[k] < |s.reqs| && s.reqs[s.running[k]].status == Running
    {
      assert Placed(s, s.running[k]);
    }
    RunningBound(c, s, led, kv, s.running);
    FreeAtLeast(c, s, led, kv);
    if s.chunked.Some? {
      assert Placed(s, s.chunked.value);
      LiveTable(c, s, led, kv, s.chunked.value);
      TablesAppend(s.reqs, s.running, s.chunked.value);
    } else {
      assert LiveIds(s) == s.running;
    }
    StartMono(s.Live(), c.maxSeqs, MaxPages(c));
  }

  // ---------------------------------------------------------------- so every prefill is of a prompt

  /** Whoever is not running yet has not been given a token. */
  ghost predicate PromptsOnly(s: Sys) {
    forall id: nat {:trigger s.reqs[id]} :: id < |s.reqs| && (s.reqs[id].status == Waiting || s.chunked == Some(id))
        ==> s.reqs[id].Completions() == 0
  }

  /** Every prefill is then of a prompt, so nothing that is cut had been given a token. */
  lemma PromptsOnlyUncut(c: Config, s: Sys, led: Ledger, kv: Memory)
    requires AtRest(c, s, led, kv) && HasRoom(c) && PromptsOnly(s)
    ensures UncutStep(c, s)
  {
    hide AtRest, Nearly, ScheduleFrom, Mid;
    NobodyPreempted(c, s, led, kv);
    var led', m := ScheduleFromOk(c, s, led, kv);
    if Schedule(c, s).Ok? {
      var b := Schedule(c, s).value;
      forall k | 0 <= k < b.numPrefill
        ensures var r := b.sys.Get(b.seqs[k]); r.Completions() > 0 ==> r.Context() == |r.tokens|
      {
        PrefillOfPrompt(c, s, b, led', led, kv, k);
      }
    }
  }

  lemma PrefillOfPrompt(c: Config, s: Sys, b: Batch, led: Ledger, led0: Ledger, kv: Memory, k: nat)
    requires Scheduled(c, s, b, led, kv) && AtRest(c, s, led0, kv) && PromptsOnly(s) && k < b.numPrefill
    ensures var r := b.sys.Get(b.seqs[k]); r.Completions() == 0 && r.Context() <= |r.tokens|
  {
    hide Quiescent, Mid;
    var id := b.seqs[k];
    DeliveriesReady(c, s, b, led, kv);
    BatchMember(c, s, b, led, kv, id);
    BatchSides(c, s, b, led, kv, id);
    assert b.seqs[..b.numPrefill][k] == id;
    assert Placed(s, id);
  }

  /** A step never puts a request with completions back to waiting or into the chunk slot. */
  lemma PromptsOnlyKept(c: Config, s: Sys, b: Batch, led: Ledger, led0: Ledger, kv: Memory, ts: seq<Token>, s': Sys)
    requires Ended(c, s, b, led, led0, kv, ts, s') && PromptsOnly(s)
    requires Queues(s')
    ensures PromptsOnly(s')
  {
    hide Quiescent, Mid, NeedLogits, FinalReq, Stops;
    forall id: nat | id < |s'.reqs| && (s'.reqs[id].status == Waiting || s'.chunked == Some(id))
      ensures s'.reqs[id].Completions() == 0
    {
      assert id < |b.sys.reqs| && s'.reqs[id] == FinalReq(c, b, ts, id);
      BatchMember(c, s, b, led, kv, id);
      BatchSides(c, s, b, led, kv, id);
      FinalCases(c, s, b, led, kv, ts, id);
      assert Placed(s, id) && Placed(s', id);
      RestLimits(c, s, led0, kv);
      assert ReqLimits(c, s.reqs[id]);
    }
  }

  /** With room, a step cuts nothing, stays at rest, and keeps every request before its first token out of `running`. */
  lemma PromptsOnlyStep(net: Net, c: Config, e: Engine, led: Ledger, kv: Memory) returns (led': Ledger, kv': Memory)
    requires AtRest(c, e.sys, led, kv) && Holds(net, e.mems, kv) && AllFaithful(net, c, e.sys)
    requires HasRoom(c) && PromptsOnly(e.sys) && Step(net, c, e).Ok?
    ensures var e' := Step(net, c, e).value;
            AtRest(c, e'.sys, led', kv') && Holds(net, e'.mems, kv') && AllFaithful(net, c, e'.sys)
                && PromptsOnly(e'.sys)
  {
    hide AtRest, Nearly, Holds, Step, Schedule, Ended, TokenStep, PromptsOnly, AllFaithful, UncutStep, SafeStep,
         HasRoom, Cut;
    StepNeedsSchedule(net, c, e);
    NobodyPreempted(c, e.sys, led, kv);
    PromptsOnlyUncut(c, e.sys, led, kv);
    RestIsSteppable(c, e.sys, led, kv);
    led', kv' := StepKeeps(net, c, e, led, kv);
    var led2, kv2 := UncutDecreases(net, c, e, led, kv);
    var led1, kv1, ts := StepOk(net, c, e, led, kv);
    var s', b := Step(net, c, e).value.sys, Schedule(c, e.sys).value;
    RestQueues(c, s', led', kv');
    PromptsOnlyKept(c, e.sys, b, led1, led, kv, ts, s');
  }

  lemma StepNeedsSchedule(net: Net, c: Config, e: Engine)
    ensures Step(net, c, e).Ok? ==> Schedule(c, e.sys).Ok?
  {
    hide Schedule, Postprocess;
  }

  lemma RestQueues(c: Config, s: Sys, led: Ledger, kv: Memory)
    requires AtRest(c, s, led, kv)
    ensures Queues(s)
  {
  }

  /** With room for everybody no step of `generate` cuts a resumed request, chunked prefill or not. */
  lemma {:induction false} RoomyGenerate(net: Net, c: Config, e: Engine, led: Ledger, kv: Memory, n: nat)
    requires AtRest(c, e.sys, led, kv) && Holds(net, e.mems, kv) && AllFaithful(net, c, e.sys) && HasRoom(c)
             && PromptsOnly(e.sys)
    ensures UncutGenerate(net, c, e, n)
    decreases n
  {
    hide AtRest, Holds, Step, UncutStep, AllFaithful, PromptsOnly, HasRoom;
    if !e.sys.IsFinished() && n > 0 {
      PromptsOnlyUncut(c, e.sys, led, kv);
      if Step(net, c, e).Ok? {
        var led', kv' := PromptsOnlyStep(net, c, e, led, kv);
        RoomyGenerate(net, c, Step(net, c, e).value, led', kv', n - 1);
      }
    }
  }

  /** And every tick is safe in every run in which requests arrive at any time. */
  lemma {:induction false} RoomyRun(net: Net, c: Config, e: Engine, events: seq<Event>, led: Ledger, kv: Memory)
    requires AtRest(c, e.sys, led, kv) && Holds(net, e.mems, kv) && AllFaithful(net, c, e.sys) && HasRoom(c)
             && PromptsOnly(e.sys)
    ensures SafeRun(net, c, e, events)
    decreases |events|
  {
    hide AtRest, Nearly, Cut, Holds, Step, AllFaithful, HasRoom, Faithful;
    if events != [] {
      RestIsSteppable(c, e.sys, led, kv);
      match events[0] {
        case Add(prompt, maxTokens, ignoreEos) =>
          if AddRequest(c, e, prompt, maxTokens, ignoreEos).Ok? {
            var e1 := AddRequest(c, e, prompt, maxTokens, ignoreEos).value;
            AddOk(net, c, e, led, kv, prompt, maxTokens, ignoreEos);
            NewcomerFaithful(net, c, e.sys, e1.sys);
            RestQueues(c, e.sys, led, kv);
            NewcomerPrompts(c, e, prompt, maxTokens, ignoreEos);
            RoomyRun(net, c, e1, events[1..], led, kv);
          }
        case Tick =>
          if Step(net, c, e).Ok? {
            var led', kv' := PromptsOnlyStep(net, c, e, led, kv);
            RoomyRun(net, c, Step(net, c, e).value, events[1..], led', kv');
          }
      }
    }
  }

  lemma NewcomerPrompts(c: Config, e: Engine, prompt: seq<Token>, maxTokens: int, ignoreEos: bool)
    requires PromptsOnly(e.sys) && (e.sys.chunked.Some? ==> e.sys.chunked.value < |e.sys.reqs|)
    requires AddRequest(c, e, prompt, maxTokens, ignoreEos).Ok?
    ensures PromptsOnly(AddRequest(c, e, prompt, maxTokens, ignoreEos).value.sys)
  {
  }
}
