/** One run of the engine, from the start, that ends in a failed assertion: for every hash function, every network, both
    admission modes and any prompts of one token. */
module FailingRun {
  import opened Arith
  import opened Seqs
  import opened Requests
  import opened Pages
  import opened CacheInvariant
  import opened KvMemory
  import opened Growth
  import opened Boundary
  import opened Scheduling
  import opened SchedulerState
  import opened Prefill
  import opened Steps
  import opened Liveness
  import opened Delivery
  import opened Postprocessing
  import opened Forward
  import opened Engine
  import opened Runs
  import opened CutResume

  /** Two pages of four slots, two tokens a step, two running requests, chunked prefill. */
  predicate IsTight(c: Config) {
    c.B == 4 && c.numBlocks == 2 && c.maxSeqs == 2 && c.maxBatch == 2 && c.maxLen == 9 && c.chunked
  }

  /** The first request needs its second page just when the other one has filled three slots of the last free page. */
  function Failing(a: Token, b: Token): seq<Event> {
    [Add([a], 5, true), Tick, Add([b], 8, true), Tick, Tick, Tick, Tick, Tick, Tick]
  }

  /** One prompt token, `n` tokens so far, `k` of them cached. */
  predicate At(s: Sys, id: nat, n: nat, k: nat) {
    && id < |s.reqs|
    && var r := s.reqs[id];
    |r.tokens| == n && r.cached == k && r.numPrompt == 1 && r.ignoreEos && r.maxTokens == (if id == 0 then 5 else 8)
  }

  predicate Queued(s: Sys, waiting: seq<nat>, running: seq<nat>, total: nat) {
    s.waiting == waiting && s.running == running && s.chunked.None? && |s.reqs| == total
  }

  ghost predicate Resting(net: Net, c: Config, e: Engine, led: Ledger, kv: Memory) {
    IsTight(c) && AtRest(c, e.sys, led, kv) && Holds(net, e.mems, kv)
  }

  lemma TightAmple(c: Config)
    requires IsTight(c)
    ensures Ample(c)
  {
  }

  // ---------------------------------------------------------------- what a step makes of a small state

  lemma Outcome(c: Config, s0: Sys, b: Batch, led: Ledger, led0: Ledger, kv: Memory, ts: seq<Token>, s: Sys, id: nat)
    requires Ended(c, s0, b, led, led0, kv, ts, s) && id < |s0.reqs| && s0.reqs[id].ignoreEos
    ensures |s.reqs| == |s0.reqs| == |b.sys.reqs|
    ensures id !in b.seqs ==> s.reqs[id] == s0.reqs[id]
    ensures id in b.seqs ==>
              var r0 := s0.reqs[id];
              var r := s.reqs[id];
              var ctx := b.sys.reqs[id].Context();
              && r.numPrompt == r0.numPrompt && r.maxTokens == r0.maxTokens && r.ignoreEos
              && ctx <= |r0.tokens|
              && (id in s0.running ==> ctx == |r0.tokens|)
              && (ctx < |r0.tokens| ==> r.tokens == r0.tokens && r.cached == ctx && r.status == Running)
              && (ctx == |r0.tokens| && r0.Completions() + 1 < r0.maxTokens && |r0.tokens| + 1 < c.maxLen ==>
                    |r.tokens| == |r0.tokens| + 1 && r.cached == ctx && r.status == Running)
              && (ctx == |r0.tokens| && r0.Completions() + 1 >= r0.maxTokens ==> r.status == Finished)
  {
    hide Quiescent, Mid, NeedLogits, FinalReq;
    assert |s.reqs| == |b.sys.reqs|;
    BatchSides(c, s0, b, led, kv, id);
    EndedCount(c, s0, b, led, led0, kv, ts, s);
    BatchMember(c, s0, b, led, kv, id);
    FinalCases(c, s0, b, led, kv, ts, id);
  }

  lemma EndedCount(c: Config, s0: Sys, b: Batch, led: Ledger, led0: Ledger, kv: Memory, ts: seq<Token>, s: Sys)
    requires Ended(c, s0, b, led, led0, kv, ts, s)
    ensures |s.reqs| == |s0.reqs| == |b.sys.reqs|
  {
    hide Consistent, Quiescent, FinalReq;
  }

  lemma OneLeft(s: seq<nat>, t: seq<nat>, xs: seq<nat>, id: nat)
    requires NoDup(t) && s == [id] && forall x :: x in t <==> x in s && x !in xs
    ensures t == if id in xs then [] else [id]
  {
    NoDupCard(t);
    assert ToSet(t) == if id in xs then {} else {id};
    if id !in xs {
      assert t[0] in t;
    }
  }

  /** The queues after a step whose prefills have all reached the end of their prompts. */
  lemma QueuesAfter(c: Config, s0: Sys, b: Batch, led: Ledger, led0: Ledger, kv: Memory, ts: seq<Token>, s: Sys)
    requires Ended(c, s0, b, led, led0, kv, ts, s) && s0.chunked.None? && b.numPrefill <= |b.seqs|
    requires forall k :: 0 <= k < b.numPrefill ==> IsPromoted(s, b.seqs[k])
    ensures s.chunked.None?
    ensures s.running == Alive(s, s0.running) + Promoted(s, b.seqs[..b.numPrefill])
    ensures NoDup(s.waiting) && forall x :: x in s.waiting <==> x in s0.waiting && x !in b.seqs
  {
    hide Quiescent, Mid, NeedLogits, FinalReq, Alive, Promoted;
    BatchSides(c, s0, b, led, kv, 0);
    var prefills := b.seqs[..b.numPrefill];
    if prefills != [] {
      assert prefills[|prefills| - 1] == b.seqs[b.numPrefill - 1];
    }
  }

  lemma ShortLists(s: Sys, x: nat, y: nat)
    ensures Alive(s, []) == [] && Promoted(s, []) == []
    ensures Alive(s, [x]) == if s.Get(x).status == Finished then [] else [x]
    ensures Promoted(s, [x]) == if IsPromoted(s, x) then [x] else []
    ensures s.Get(x).status != Finished && s.Get(y).status != Finished ==> Alive(s, [x, y]) == [x, y]
  {
    assert [x][1..] == [] && [x, y][1..] == [y] && [y][1..] == [];
    assert Alive(s, [y]) == (if s.Get(y).status == Finished then [] else [y]) + Alive(s, []);
    assert Alive(s, [x]) == (if s.Get(x).status == Finished then [] else [x]) + Alive(s, []);
    assert Promoted(s, [x]) == (if IsPromoted(s, x) then [x] else []) + Promoted(s, []);
  }

  /** The pages of a running request, and what it will need next. */
  lemma NeedsNext(c: Config, s: Sys, led: Ledger, kv: Memory, id: nat, n: nat)
    requires 1 < n < 9 && IsTight(c) && AtRest(c, s, led, kv) && At(s, id, n, n - 1) && id in s.running
    ensures |s.reqs[id].table| == (n + 2) / 4 && NumBlocksToAppend(c, s.reqs[id], 1) == (n + 3) / 4 - (n + 2) / 4
  {
    hide AtRest;
    RequestPartition(c, s, led, kv, id);
  }

  lemma SumOfTwo(c: Config, reqs: seq<Req>, x: nat, y: nat)
    requires x < |reqs| && y < |reqs|
    ensures SumAppend(c, reqs, [x]) == NumBlocksToAppend(c, reqs[x], 1) && SumAppend(c, reqs, []) == 0
    ensures SumAppend(c, reqs, [x, y]) == NumBlocksToAppend(c, reqs[x], 1) + NumBlocksToAppend(c, reqs[y], 1)
  {
    assert [x][1..] == [] && [x, y][1..] == [y] && [y][1..] == [];
    assert SumAppend(c, reqs, [y]) == NumBlocksToAppend(c, reqs[y], 1) + SumAppend(c, reqs, []);
    assert SumAppend(c, reqs, [x]) == NumBlocksToAppend(c, reqs[x], 1) + SumAppend(c, reqs, []);
  }

  /** A request of at most one block has nothing to look up. */
  lemma ShortMatch(c: Config, pool: Pool, r: Req)
    requires Idle(r) && 1 <= |r.tokens| <= c.B
    ensures MatchPrefix(c, pool, r) == Ok([])
  {
    assert Start(0, c.B) == 0 && Start(1, c.B) == c.B;
    CeilUnique(|r.tokens|, c.B, 1);
  }

  /** A lone newcomer or returning request: what it gets, and whether it fits. */
  lemma WaiterReady(c: Config, s: Sys, led: Ledger, kv: Memory, id: nat, n: nat)
    requires IsTight(c) && AtRest(c, s, led, kv) && DecodeFits(c, s) && s.chunked.None? && s.waiting == [id]
    requires At(s, id, n, 0) && 1 <= n <= 4 && |s.running| <= 1
    ensures OneWaits(c, s, led, kv, id, [])
    ensures Portion(c, s, id, []) == Min(n, 2 - |s.running|)
    ensures Fits(c, s, id, []) <==> 1 + SumAppend(c, s.reqs, s.running) <= |s.pool.free|
  {
    hide AtRest, Nearly, SumAppend, DecodeFits;
    RestIsSteppable(c, s, led, kv);
    WaitingIdle(c, s, led, kv, id);
    ShortMatch(c, s.pool, s.reqs[id]);
    assert Start(0, c.B) == 0;
    assert FreeAmong(s.pool, []) == {};
  }

  /** Free pages while only one request runs. */
  lemma OneHolds(c: Config, s: Sys, led: Ledger, kv: Memory, id: nat)
    requires IsTight(c) && AtRest(c, s, led, kv) && s.running == [id] && s.chunked.None? && id < |s.reqs|
    ensures |s.pool.free| + |s.reqs[id].table| == 2
  {
    hide Quiescent;
    forall x: nat | x < |s.reqs| && s.reqs[x].status == Running
      ensures x == id
    {
      assert Placed(s, x);
    }
    RestFree(c, s, led, kv, Some(id));
  }

  // ---------------------------------------------------------------- the steps of the run

  /** The first request is prefilled: its one token. */
  lemma Tick1(net: Net, c: Config, e: Engine, led: Ledger, kv: Memory) returns (led': Ledger, kv': Memory)
    requires Resting(net, c, e, led, kv) && Queued(e.sys, [0], [], 1) && At(e.sys, 0, 1, 0)
    ensures Step(net, c, e).Ok?
    ensures var e' := Step(net, c, e).value;
              Resting(net, c, e', led', kv') && Queued(e'.sys, [], [0], 1) && At(e'.sys, 0, 2, 1)
  {
    hide Postprocess, AtRest, Nearly, Holds, Step, Schedule, Ended, Fits, Portion, OneWaits, Promoted, Alive, Quiescent,
         Scheduled;
    var s := e.sys;
    SumOfTwo(c, s.reqs, 0, 0);
    RestIsSteppable(c, s, led, kv);
    TightAmple(c);
    LoneOne(c, s, led, kv, 0);
    WaiterReady(c, s, led, kv, 0, 1);
    var led1 := OneBatch(c, s, led, kv, 0, []);
    var ts;
    led', kv', ts := StepOk(net, c, e, led, kv);
    var b := Schedule(c, s).value;
    var s' := Step(net, c, e).value.sys;
    assert b.seqs == [0];
    Outcome(c, s, b, led', led, kv, ts, s', 0);
    assert b.seqs[..1] == [0] && b.seqs[0] == 0;
    QueuesAfter(c, s, b, led', led, kv, ts, s');
    ShortLists(s', 0, 0);
    OneLeft(s.waiting, s'.waiting, b.seqs, 0);
  }

  /** The second request is prefilled beside the first, whose page has room. */
  lemma Tick2(net: Net, c: Config, e: Engine, led: Ledger, kv: Memory) returns (led': Ledger, kv': Memory)
    requires Resting(net, c, e, led, kv) && Queued(e.sys, [1], [0], 2) && At(e.sys, 0, 2, 1) && At(e.sys, 1, 1, 0)
    ensures Step(net, c, e).Ok?
    ensures var e' := Step(net, c, e).value;
            Resting(net, c, e', led', kv') && Queued(e'.sys, [], [0, 1], 2) && At(e'.sys, 0, 3, 2)
                && At(e'.sys, 1, 2, 1)
  {
    hide Postprocess, AtRest, Nearly, Holds, Step, Schedule, Ended, Fits, Portion, OneWaits, Promoted, Alive, Quiescent,
         Scheduled, Admit, DecodeAll;
    var s := e.sys;
    SumOfTwo(c, s.reqs, 0, 0);
    NeedsNext(c, s, led, kv, 0, 2);
    OneHolds(c, s, led, kv, 0);
    RestIsSteppable(c, s, led, kv);
    WaiterReady(c, s, led, kv, 1, 1);
    var led1 := OneBatch(c, s, led, kv, 1, []);
    var ts;
    led', kv', ts := StepOk(net, c, e, led, kv);
    var b := Schedule(c, s).value;
    var s' := Step(net, c, e).value.sys;
    assert b.seqs == [1, 0];
    Outcome(c, s, b, led', led, kv, ts, s', 0);
    Outcome(c, s, b, led', led, kv, ts, s', 1);
    assert b.seqs[..1] == [1] && b.seqs[0] == 1;
    QueuesAfter(c, s, b, led', led, kv, ts, s');
    ShortLists(s', 0, 0);
    ShortLists(s', 1, 1);
    OneLeft(s.waiting, s'.waiting, b.seqs, 1);
  }

  /** A step that only decodes. */
  lemma DecodeBatch(c: Config, s: Sys, led: Ledger, kv: Memory)
    requires IsTight(c) && AtRest(c, s, led, kv) && DecodeFits(c, s) && s.waiting == [] && s.chunked.None?
             && s.running != []
    ensures Schedule(c, s).Ok? && Schedule(c, s).value.seqs == s.running && Schedule(c, s).value.numPrefill == 0
  {
    hide AtRest, DecodeFits, Scheduled, PrefillStep, DecodeAll;
    var led', m := ScheduleFromOk(c, s, led, kv);
  }

  /** Both decode, while their pages have room. */
  lemma Tick34(net: Net, c: Config, e: Engine, led: Ledger, kv: Memory, n: nat) returns (led': Ledger, kv': Memory)
    requires 3 <= n <= 4
    requires Resting(net, c, e, led, kv) && Queued(e.sys, [], [0, 1], 2) && At(e.sys, 0, n, n - 1)
             && At(e.sys, 1, n - 1, n - 2)
    ensures Step(net, c, e).Ok?
    ensures var e' := Step(net, c, e).value;
            Resting(net, c, e', led', kv') && Queued(e'.sys, [], [0, 1], 2) && At(e'.sys, 0, n + 1, n)
                && At(e'.sys, 1, n, n - 1)
  {
    hide Postprocess, AtRest, Nearly, Holds, Step, Schedule, Ended, Promoted, Alive, Quiescent, Scheduled;
    var s := e.sys;
    SumOfTwo(c, s.reqs, 0, 1);
    NeedsNext(c, s, led, kv, 0, n);
    NeedsNext(c, s, led, kv, 1, n - 1);
    RestIsSteppable(c, s, led, kv);
    DecodeBatch(c, s, led, kv);
    var ts;
    led', kv', ts := StepOk(net, c, e, led, kv);
    var b := Schedule(c, s).value;
    var s' := Step(net, c, e).value.sys;
    Outcome(c, s, b, led', led, kv, ts, s', 0);
    Outcome(c, s, b, led', led, kv, ts, s', 1);
    assert b.seqs[..0] == [];
    QueuesAfter(c, s, b, led', led, kv, ts, s');
    ShortLists(s', 0, 1);
    NoDupCard(s'.waiting);
    assert ToSet(s'.waiting) == {};
  }

  /** With one page each, two requests leave no page free. */
  lemma NothingFree(c: Config, s: Sys, led: Ledger, kv: Memory)
    requires IsTight(c) && AtRest(c, s, led, kv) && Queued(s, [], [0, 1], 2) && At(s, 0, 5, 4) && At(s, 1, 4, 3)
    ensures s.pool.free == []
  {
    hide KvComplete;
    NeedsNext(c, s, led, kv, 0, 5);
    NeedsNext(c, s, led, kv, 1, 4);
    RequestPartition(c, s, led, kv, 1);
    RequestPartition(c, s, led, kv, 0);
    PartialPageOwner(c, s, led, kv, 1, 0);
    var b0 := s.reqs[0].table[0];
    var b1 := s.reqs[1].table[0];
    assert Start(1, c.B) == 4;
    assert 0 in Users(s.reqs, b0);
    if s.pool.free != [] {
      var b := s.pool.free[0];
      assert b in s.pool.free && RefOk(s.pool, s.reqs, b);
      NoUsers(s.pool, s.reqs, b);
    }
  }

  /** The first request needs its second page: the other one is preempted, and does not come back in this step. */
  lemma Preempted(c: Config, s: Sys, led: Ledger, kv: Memory)
    requires IsTight(c) && AtRest(c, s, led, kv) && Queued(s, [], [0, 1], 2) && At(s, 0, 5, 4) && At(s, 1, 4, 3)
    ensures PreemptTail(c, s).Ok?
    ensures var s0 := PreemptTail(c, s).value;
            && AtRest(c, s0, led, kv) && DecodeFits(c, s0) && Queued(s0, [1], [0], 2) && At(s0, 0, 5, 4)
               && At(s0, 1, 4, 0)
            && SumAppend(c, s0.reqs, s0.running) == 1 && |s0.pool.free| == 1
  {
    hide Quiescent, Preempt;
    RestIsSteppable(c, s, led, kv);
    SumOfTwo(c, s.reqs, 0, 1);
    NeedsNext(c, s, led, kv, 0, 5);
    NeedsNext(c, s, led, kv, 1, 4);
    NothingFree(c, s, led, kv);
    TightAmple(c);
    FirstRunningStays(c, s, led, kv);
    var k := PreemptTailLongest(c, s, led, kv);
    var s0 := PreemptTail(c, s).value;
    assert PreemptTo(c, s, 2) == Ok(s);
    assert k == 1;
    assert s.running[..1] == [0] && s.running[1..] == [1];
    assert s0.waiting == (s0.running + s0.waiting)[1..] == [1];
    assert s0.reqs[0] == s.reqs[0];
    assert SameRequest(s.reqs[1], s0.reqs[1]);
    WaitingIdle(c, s0, led, kv, 1);
    OneHolds(c, s0, led, kv, 0);
    SumOfTwo(c, s0.reqs, 0, 0);
    NeedsNext(c, s0, led, kv, 0, 5);
  }

  /** The first request takes the page, gets its last token and finishes. */
  lemma Tick5(net: Net, c: Config, e: Engine, led: Ledger, kv: Memory) returns (led': Ledger, kv': Memory)
    requires Resting(net, c, e, led, kv) && Queued(e.sys, [], [0, 1], 2) && At(e.sys, 0, 5, 4) && At(e.sys, 1, 4, 3)
    ensures Step(net, c, e).Ok?
    ensures var e' := Step(net, c, e).value;
              Resting(net, c, e', led', kv') && Queued(e'.sys, [1], [], 2) && At(e'.sys, 1, 4, 0)
  {
    hide Postprocess, AtRest, Nearly, Holds, Step, ScheduleFrom, PreemptTail, Ended, Fits, Portion, OneWaits, Promoted,
         Alive, Quiescent, Scheduled, DecodeFits, SumAppend;
    var s := e.sys;
    Preempted(c, s, led, kv);
    RestIsSteppable(c, s, led, kv);
    var s0 := AfterPreemption(c, s);
    WaiterReady(c, s0, led, kv, 1, 4);
    var led1 := OneBatch(c, s0, led, kv, 1, []);
    OneNotRunning(c, s0, led, kv, 1, []);
    var ts;
    led', kv', ts := StepOk(net, c, e, led, kv);
    var b := Schedule(c, s).value;
    var s' := Step(net, c, e).value.sys;
    assert b.seqs == [0];
    Outcome(c, s0, b, led', led, kv, ts, s', 0);
    Outcome(c, s0, b, led', led, kv, ts, s', 1);
    assert b.seqs[..0] == [];
    QueuesAfter(c, s0, b, led', led, kv, ts, s');
    ShortLists(s', 0, 0);
    OneLeft(s0.waiting, s'.waiting, b.seqs, 1);
  }

  /** The second request resumes alone and is cut at two of its four tokens, behind its prompt; it runs, and fits. */
  lemma Tick6(net: Net, c: Config, e: Engine, led: Ledger, kv: Memory) returns (led': Ledger, kv': Memory)
    requires Resting(net, c, e, led, kv) && Queued(e.sys, [1], [], 2) && At(e.sys, 1, 4, 0)
    ensures Step(net, c, e).Ok?
    ensures var e' := Step(net, c, e).value;
            Nearly(c, e'.sys, led', kv') && Holds(net, e'.mems, kv') && !SafeTick(c, e'.sys)
  {
    hide Postprocess, AtRest, Nearly, Holds, Step, Schedule, Ended, Fits, Portion, OneWaits, Promoted, Alive, Quiescent,
         Scheduled, DecodeFits;
    var s := e.sys;
    RestIsSteppable(c, s, led, kv);
    TightAmple(c);
    LoneOne(c, s, led, kv, 1);
    LoneFits(c, s, led, kv);
    WaiterReady(c, s, led, kv, 1, 4);
    var led1 := OneBatch(c, s, led, kv, 1, []);
    var ts;
    led', kv', ts := StepOk(net, c, e, led, kv);
    var b := Schedule(c, s).value;
    var e' := Step(net, c, e).value;
    assert b.seqs == [1];
    Outcome(c, s, b, led', led, kv, ts, e'.sys, 1);
    assert b.seqs[..1] == [1] && b.seqs[0] == 1;
    QueuesAfter(c, s, b, led', led, kv, ts, e'.sys);
    ShortLists(e'.sys, 1, 1);
    AloneFits(c, e'.sys, led', kv');
  }

  lemma LoneFits(c: Config, s: Sys, led: Ledger, kv: Memory)
    requires IsTight(c) && AtRest(c, s, led, kv) && s.running == []
    ensures DecodeFits(c, s)
  {
  }

  // ---------------------------------------------------------------- the run

  lemma RunStep(net: Net, c: Config, e: Engine, ev: Event, rest: seq<Event>)
    ensures Run(net, c, e, [ev] + rest) ==
            var e' := Apply(net, c, e, ev); if e'.Ok? then Run(net, c, e'.value, rest) else e'
  {
    assert ([ev] + rest)[1..] == rest;
  }

  /** The two arrivals. */
  lemma Arrivals(net: Net, c: Config, e: Engine, led: Ledger, kv: Memory, a: Token, maxTokens: nat)
    requires Resting(net, c, e, led, kv) && maxTokens == (if |e.sys.reqs| == 0 then 5 else 8)
    ensures AddRequest(c, e, [a], maxTokens, true).Ok?
    ensures var e' := AddRequest(c, e, [a], maxTokens, true).value;
            && Resting(net, c, e', led, kv) && At(e'.sys, |e.sys.reqs|, 1, 0)
            && e'.sys == e.sys.(reqs := e.sys.reqs + [e'.sys.reqs[|e.sys.reqs|]],
                                waiting := e.sys.waiting + [|e.sys.reqs|])
  {
    hide AtRest, Nearly, Holds;
    RestIsSteppable(c, e.sys, led, kv);
    AddOk(net, c, e, led, kv, [a], maxTokens, true);
  }

  /** From two running requests on, the engine runs into the failed assertion. */
  lemma FromTwo(net: Net, c: Config, e: Engine, led: Ledger, kv: Memory)
    requires Resting(net, c, e, led, kv) && Queued(e.sys, [], [0, 1], 2) && At(e.sys, 0, 3, 2) && At(e.sys, 1, 2, 1)
    ensures Run(net, c, e, [Tick, Tick, Tick, Tick, Tick]) == Err(AssertionFailed)
  {
    hide Resting, Step, Queued, At, Nearly, Holds, SafeTick, Run;
    var led3, kv3 := Tick34(net, c, e, led, kv, 3);
    var e3 := Step(net, c, e).value;
    var led4, kv4 := Tick34(net, c, e3, led3, kv3, 4);
    var e4 := Step(net, c, e3).value;
    var led5, kv5 := Tick5(net, c, e4, led4, kv4);
    var e5 := Step(net, c, e4).value;
    var led6, kv6 := Tick6(net, c, e5, led5, kv5);
    var e6 := Step(net, c, e5).value;
    UnsafeTick(net, c, e6, led6, kv6);
    RunStep(net, c, e6, Tick, []);
    RunStep(net, c, e5, Tick, [Tick]);
    RunStep(net, c, e4, Tick, [Tick, Tick]);
    RunStep(net, c, e3, Tick, [Tick, Tick, Tick]);
    RunStep(net, c, e, Tick, [Tick, Tick, Tick, Tick]);
    assert [Tick] + [] == [Tick] && [Tick] + [Tick] == [Tick, Tick] && [Tick] + [Tick, Tick] == [Tick, Tick, Tick];
    assert [Tick] + [Tick, Tick, Tick] == [Tick, Tick, Tick, Tick];
    assert [Tick] + [Tick, Tick, Tick, Tick] == [Tick, Tick, Tick, Tick, Tick];
  }

  /** The run: two acceptable requests of one token each, and seven steps; the last one fails an assertion. */
  lemma FailingInput(net: Net, c: Config, mems: Layers, a: Token, b: Token)
    requires IsTight(c) && |mems| == net.layers && forall l :: 0 <= l < |mems| ==> |mems[l]| == 8
    ensures Ample(c) && forall k :: 0 <= k < |Failing(a, b)| ==> Acceptable(c, Failing(a, b)[k])
    ensures Run(net, c, InitEngine(c, mems), Failing(a, b)) == Err(AssertionFailed)
  {
    hide AtRest, Nearly, Holds, Step, At, Run;
    StartIsProduct(2, 4);
    InitOk(net, c, mems);
    var kv := BlankMemory(c);
    var e0 := InitEngine(c, mems);
    Arrivals(net, c, e0, map[], kv, a, 5);
    var e1 := AddRequest(c, e0, [a], 5, true).value;
    assert [] + [0] == [0];
    var led1, kv1 := Tick1(net, c, e1, map[], kv);
    var e2 := Step(net, c, e1).value;
    Arrivals(net, c, e2, led1, kv1, b, 8);
    var e3 := AddRequest(c, e2, [b], 8, true).value;
    assert [] + [1] == [1];
    StillAt(e2.sys, e3.sys);
    var led3, kv3 := Tick2(net, c, e3, led1, kv1);
    var e4 := Step(net, c, e3).value;
    FromTwo(net, c, e4, led3, kv3);
    var five := [Tick, Tick, Tick, Tick, Tick];
    RunStep(net, c, e3, Tick, five);
    RunStep(net, c, e2, Add([b], 8, true), [Tick] + five);
    RunStep(net, c, e1, Tick, [Add([b], 8, true)] + ([Tick] + five));
    RunStep(net, c, e0, Add([a], 5, true), [Tick] + ([Add([b], 8, true)] + ([Tick] + five)));
    assert Failing(a, b) == [Add([a], 5, true)] + ([Tick] + ([Add([b], 8, true)] + ([Tick] + five)));
  }

  lemma StillAt(s: Sys, s': Sys)
    requires At(s, 0, 2, 1) && |s.reqs| == 1 && |s'.reqs| == 2 && s'.reqs == s.reqs + [s'.reqs[1]]
    ensures At(s', 0, 2, 1)
  {
  }
}
