/** One request, alone in the engine from its arrival on: exactly when `generate` ends for it. */
module LoneRun {
  import opened Arith
  import opened Seqs
  import opened Requests
  import opened Pages
  import opened CacheInvariant
  import opened KvMemory
  import opened Growth
  import opened Matching
  import opened Boundary
  import opened Scheduling
  import opened SchedulerState
  import opened Prefill
  import opened Steps
  import opened Liveness
  import opened Delivery
  import opened Postprocessing
  import opened Forward
  import opened Engine
  import opened Runs
  import opened Termination
  import opened CutResume
  import opened Ownership
  import opened Refill
  import opened Drops
  import opened Cycles

  /** The one request: new, inside its prompt, or decoding, with no more than the pool can hold; it will outgrow the
      pool. It owns the hashes of its pages as far as they do not repeat. */
  ghost predicate Lone(net: Net, c: Config, s: Sys, led: Ledger, kv: Memory, t: seq<Token>) {
    && AtRest(c, s, led, kv) && |s.reqs| == 1 && c.chunked && c.maxBatch > 0 && c.maxSeqs > 0
    && var r := s.reqs[0];
    && Faithful(net, c, r) && r.status != Finished && Whole(net, c, r) == t && Start(c.numBlocks, c.B) + 2 <= |t|
    && r.numPrompt <= Start(c.numBlocks, c.B) && r.cached <= Start(c.numBlocks, c.B)
    && OwnsLast(c, s.pool, r, Full(c, r)) && (s.waiting == [0] || s.waiting == [])
    && (if s.waiting == [0] then |r.tokens| == r.numPrompt && s.running == [] && s.chunked.None?
        && s.pool.owner == map[]
        else if s.chunked == Some(0) then |r.tokens| == r.numPrompt && s.running == []
        else s.running == [0] && s.chunked.None?)
  }

  // ---------------------------------------------------------------- a step that finishes nobody

  /** The batch computes `ctx` tokens of the request: part of its prompt, or all there are. */
  ghost predicate Computes(c: Config, s: Sys, b: Batch, ctx: nat) {
    && b.seqs == [0] && |b.sys.reqs| == |s.reqs| == 1 && b.sys.reqs[0].Context() == ctx <= Start(c.numBlocks, c.B)
    && (ctx < s.reqs[0].numPrompt || ctx == |s.reqs[0].tokens|)
    && OwnsLast(c, b.sys.pool, b.sys.reqs[0], Full(c, b.sys.reqs[0]))
  }

  /** A step that finishes nobody leaves the pool to itself. */
  lemma PostPool(c: Config, b: Batch, ts: seq<Token>)
    requires b.seqs == [0] && b.numPrefill <= 1
    requires var ids := NeedLogits(b.sys, b.seqs);
             |ts| == |ids| && (ids != [] ==> !Stops(c, WithToken(b.sys.Get(0), ts[0])))
    requires Postprocess(c, b, NeedLogits(b.sys, b.seqs), ts).Ok?
    ensures Postprocess(c, b, NeedLogits(b.sys, b.seqs), ts).value.pool == b.sys.pool
  {
    hide Finish, CommitAll, Partial, Promote, Stops;
    assert b.seqs[1..] == [] && NeedLogits(b.sys, b.seqs[1..]) == [];
    var ids := NeedLogits(b.sys, b.seqs);
    var s1 := DeliverAll(c, b.sys, ids, ts).value;
    assert s1.pool == b.sys.pool by {
      if ids != [] {
        assert ids == [0] && ids[1..] == [] && ts[1..] == [];
        var s' := Deliver(c, b.sys, 0, ts[0]).value;
        assert DeliverAll(c, s', ids[1..], ts[1..]) == Ok(s');
      }
    }
    CommitPool(s1, b.seqs);
  }

  /** What the request is after a step that did not finish it. */
  lemma LoneRequest(c: Config, s0: Sys, b: Batch, led: Ledger, led0: Ledger, kv: Memory, ts: seq<Token>, s: Sys,
                    ctx: nat)
    requires Ended(c, s0, b, led, led0, kv, ts, s) && Computes(c, s0, b, ctx) && b.numPrefill <= 1
    requires Postprocess(c, b, NeedLogits(b.sys, b.seqs), ts) == Ok(s)
    requires |s.reqs| == 1 && s.reqs[0].status != Finished
    ensures s.pool == b.sys.pool && s.reqs[0].table == b.sys.reqs[0].table
            && s.reqs[0].Context() == s.reqs[0].cached == ctx
    ensures b.sys.reqs[0].tokens == s0.reqs[0].tokens <= s.reqs[0].tokens
    ensures ctx < |s0.reqs[0].tokens| ==> s.reqs[0].tokens == s0.reqs[0].tokens
    ensures s.reqs[0].status == Running
  {
    hide Quiescent, Mid, FinalReq, Stops, CommitAll, Partial, Promote, Posted, OwnsLast;
    BatchMember(c, s0, b, led, kv, 0);
    FinalCases(c, s0, b, led, kv, ts, 0);
    PostedFinal(c, b, ts, s);
    assert b.seqs[1..] == [] && NeedLogits(b.sys, b.seqs[1..]) == [];
    var ids := NeedLogits(b.sys, b.seqs);
    if ids != [] {
      assert ids == [0] && IndexOf(ids, 0) == 0 && TokenFor(b, ts, 0) == ts[0];
    }
    PostPool(c, b, ts);
  }

  lemma PostedFinal(c: Config, b: Batch, ts: seq<Token>, s: Sys)
    requires |ts| == |NeedLogits(b.sys, b.seqs)| && b.numPrefill <= |b.seqs| && Posted(c, b, ts, s) && |s.reqs| == 1
    ensures |b.sys.reqs| == 1 && s.reqs[0] == FinalReq(c, b, ts, 0)
  {
    hide FinalReq;
  }

  lemma LoneQueues(c: Config, s0: Sys, b: Batch, led: Ledger, led0: Ledger, kv: Memory, ts: seq<Token>, s: Sys)
    requires Ended(c, s0, b, led, led0, kv, ts, s) && b.seqs == [0] && |s0.reqs| == |s.reqs| == 1
    requires s0.waiting == [0] || s0.waiting == []
    requires (s0.running == [] && b.numPrefill == 1) || (s0.running == [0] && b.numPrefill == 0 && s0.chunked.None?)
    requires s.reqs[0].status == Running && (s0.running == [0] ==> s.reqs[0].cached >= s.reqs[0].numPrompt)
    ensures s.waiting == []
    ensures if s.reqs[0].cached < s.reqs[0].numPrompt then s.chunked == Some(0) && s.running == []
            else s.chunked.None? && s.running == [0]
  {
    hide Ended, Scheduled, Posted, Alive, Promoted, IsPromoted, NeedLogits, Start, Computes;
    EndedBatch(c, s0, b, led, led0, kv, ts, s);
    PostedQueues(c, s0, b, led, led0, kv, ts, s);
    BatchSides(c, s0, b, led, kv, 0);
    assert b.seqs[..b.numPrefill] == if b.numPrefill == 1 then [0] else [];
    OneAlive(s);
    NoDupCard(s.waiting);
    assert ToSet(s.waiting) == {};
  }

  lemma PostedQueues(c: Config, s0: Sys, b: Batch, led: Ledger, led0: Ledger, kv: Memory, ts: seq<Token>, s: Sys)
    requires Ended(c, s0, b, led, led0, kv, ts, s) && b.numPrefill <= |b.seqs|
    ensures s.waiting == b.sys.waiting
    ensures s.running == Alive(s, b.sys.running) + Promoted(s, b.seqs[..b.numPrefill])
    ensures var prefills := b.seqs[..b.numPrefill];
            s.chunked == if prefills == [] then b.sys.chunked
                         else if IsPartial(s, prefills[|prefills| - 1]) then Some(prefills[|prefills| - 1]) else None
  {
    hide Scheduled, AtRest, FinalReq, Alive, Promoted, IsPartial, NeedLogits;
  }

  lemma OneAlive(s: Sys)
    requires |s.reqs| == 1 && s.reqs[0].status == Running
    ensures Alive(s, []) == [] && Promoted(s, []) == [] && Alive(s, [0]) == [0]
    ensures Promoted(s, [0]) == if s.reqs[0].cached >= s.reqs[0].numPrompt then [0] else []
  {
    assert [0][1..] == [];
    assert Alive(s, [0]) == (if s.Get(0).status == Finished then [] else [0]) + Alive(s, [0][1..]);
    assert Promoted(s, [0]) == (if IsPromoted(s, 0) then [0] else []) + Promoted(s, [0][1..]);
  }

  /** What such a step leaves is again the one request, further on. */
  lemma LoneStep(net: Net, c: Config, e: Engine, led: Ledger, kv: Memory, t: seq<Token>, b: Batch, ctx: nat)
    returns (led': Ledger, kv': Memory)
    requires Lone(net, c, e.sys, led, kv, t) && Holds(net, e.mems, kv)
    requires |e.sys.reqs[0].tokens| <= Start(c.numBlocks, c.B)
    requires PreemptTail(c, e.sys) == Ok(e.sys) && Schedule(c, e.sys) == Ok(b) && Computes(c, e.sys, b, ctx)
    ensures Step(net, c, e).Ok?
    ensures var e' := Step(net, c, e).value;
            && Lone(net, c, e'.sys, led', kv', t) && Holds(net, e'.mems, kv')
            && e'.sys.Get(0).numPrompt == e.sys.Get(0).numPrompt
  {
    hide Nearly, AtRest, Holds, Step, Schedule, Ended, Postprocess, OwnsLast, TokenStep, Quiescent, Cut, DecodeFits,
         PreemptTail, Faithful, Whole, NeedLogits, Decode;
    RestIsSteppable(c, e.sys, led, kv);
    var ts;
    led', kv', ts := StepOk(net, c, e, led, kv);
    var s, s' := e.sys, Step(net, c, e).value.sys;
    EndedBatch(c, s, b, led', led, kv, ts, s');
    BatchIsSafe(c, s, b, ctx, led', kv);
    StillUnfinished(net, c, s.reqs[0], s'.reqs[0], t, Start(c.numBlocks, c.B));
    LoneRequest(c, s, b, led', led, kv, ts, s', ctx);
    LoneQueues(c, s, b, led', led, kv, ts, s');
    OwnsLonger(c, s'.pool, b.sys.reqs[0], s'.reqs[0], ctx / c.B);
  }

  lemma BatchIsSafe(c: Config, s: Sys, b: Batch, ctx: nat, led: Ledger, kv: Memory)
    requires Scheduled(c, s, b, led, kv) && Computes(c, s, b, ctx) && (s.running == [] || s.running == [0])
    ensures b.numPrefill == (if s.running == [] then 1 else 0) && ChunkSafe(b)
    ensures s.running == [0] ==> ctx == |s.reqs[0].tokens|
  {
    hide Scheduled, Computes, NeedLogits, Complete;
    ComputesOne(c, s, b, ctx);
    BatchMember(c, s, b, led, kv, 0);
    BatchSplit(c, s, b, led, kv);
    OneSplit(b.seqs, b.numPrefill, s.running);
    BatchSides(c, s, b, led, kv, 0);
    if s.running == [0] { CompleteMeans(b.sys, 0); }
  }

  lemma ComputesOne(c: Config, s: Sys, b: Batch, ctx: nat)
    requires Computes(c, s, b, ctx)
    ensures b.seqs == [0] && |b.sys.reqs| == |s.reqs| == 1 && b.sys.reqs[0].Context() == ctx
    ensures ctx < s.reqs[0].numPrompt || ctx == |s.reqs[0].tokens|
  {
    hide OwnsLast, Start, Full;
  }

  lemma CompleteMeans(s: Sys, id: nat)
    requires Complete(s, id)
    ensures id < |s.reqs| && s.reqs[id].Context() == |s.reqs[id].tokens|
  {
  }

  lemma OneSplit(seqs: seq<nat>, n: nat, running: seq<nat>)
    requires seqs == [0] && n <= 1 && seqs[n..] == running
    ensures n == if running == [] then 1 else 0
  {
    assert |seqs[n..]| == 1 - n;
  }

  lemma BatchSplit(c: Config, s: Sys, b: Batch, led: Ledger, kv: Memory)
    requires Scheduled(c, s, b, led, kv)
    ensures b.numPrefill <= |b.seqs| && b.seqs[b.numPrefill..] == s.running
  {
    hide Mid, SumNew;
  }

  lemma StillUnfinished(net: Net, c: Config, r: Req, r': Req, t: seq<Token>, n: nat)
    requires TokenStep(net, c, r, r') && Faithful(net, c, r) && r.status != Finished && Whole(net, c, r) == t
    requires |r.tokens| <= n && n + 2 <= |t|
    ensures r'.status != Finished && Faithful(net, c, r') && Whole(net, c, r') == t && r'.numPrompt == r.numPrompt
    ensures |r'.tokens| <= n + 1 && 1 <= r.numPrompt <= |r.tokens|
  {
    hide Decode;
    TokenStepFaithful(net, c, r, r');
    SameWhole(net, c, r, r');
  }

  /** Tokens behind the full pages make no difference to who owns what. */
  lemma OwnsLonger(c: Config, pool: Pool, r: Req, r': Req, m: nat)
    requires OwnsLast(c, pool, r, m) && r'.table == r.table && r.tokens <= r'.tokens
    ensures OwnsLast(c, pool, r', m)
  {
    hide BlockName;
    forall j: nat | j < m
      ensures BlockName(c, r.tokens, j) == BlockName(c, r'.tokens, j)
    {
      StartMono(j + 1, m, c.B);
      PrefixNames(c, r.tokens, r'.tokens, j);
    }
    forall i: nat | i < m && LastIn(c, r'.tokens, m, i)
      ensures Owns(c, pool, r', i)
    {
      assert LastIn(c, r.tokens, m, i);
      assert Owns(c, pool, r, i);
    }
  }

  // ---------------------------------------------------------------- its three kinds of steps

  /** Where the next step gets: as far as the budget goes. */
  function Reach(c: Config, s: Sys): nat {
    Min(|s.Get(0).tokens|, s.Get(0).cached + c.maxBatch)
  }

  /** A step from this state finds nobody to preempt, and computes what it can. */
  ghost predicate Goes(c: Config, s: Sys) {
    && PreemptTail(c, s) == Ok(s) && Schedule(c, s).Ok? && |s.reqs| == 1
    && |s.reqs[0].tokens| <= Start(c.numBlocks, c.B) && Computes(c, s, Schedule(c, s).value, Reach(c, s))
  }

  /** With an empty hash map nothing is found. */
  lemma NothingFound(c: Config, s: Sys, led: Ledger, kv: Memory)
    requires AtRest(c, s, led, kv) && s.waiting == [0] && |s.reqs| == 1 && s.pool.owner == map[]
    ensures MatchPrefix(c, s.pool, s.reqs[0]) == Ok([]) && PlanOk(c, s.pool, led, s.reqs[0], [])
  {
    hide Nearly, World, MatchPrefix;
    RestIsSteppable(c, s, led, kv);
    WaitingIdle(c, s, led, kv, 0);
    RestWorld(c, s, led, kv);
    MatchPrefixSound(c, s.pool, s.reqs, led, 0);
    var ids := MatchPrefix(c, s.pool, s.reqs[0]).value;
    assert ids != [] ==> PlanEntry(c, s.pool, led, s.reqs[0], ids, 0);
  }

  lemma SlotsFit(c: Config, n: nat)
    requires n <= Start(c.numBlocks, c.B)
    ensures Ceil(n, c.B) <= c.numBlocks
  {
    CeilMono(n, Start(c.numBlocks, c.B), c.B);
    CeilSplit(c.numBlocks, 0, c.B);
    CeilBounds(0, c.B);
  }

  lemma LoneWaits(net: Net, c: Config, s: Sys, led: Ledger, kv: Memory, t: seq<Token>)
    requires Lone(net, c, s, led, kv, t) && s.waiting == [0]
    ensures OneWaits(c, s, led, kv, 0, []) && Fits(c, s, 0, []) && Portion(c, s, 0, []) == Reach(c, s)
    ensures Nearly(c, s, led, kv) && Idle(s.reqs[0]) && s.reqs[0].newToks == 0 && PlanOk(c, s.pool, led, s.reqs[0], [])
    ensures |s.reqs[0].tokens| == s.reqs[0].numPrompt <= Start(c.numBlocks, c.B)
    ensures s.running == [] && |s.reqs| == 1
  {
    hide Nearly, Faithful, OwnsLast, MatchPrefix, PlanOk;
    RestIsSteppable(c, s, led, kv);
    WaitingIdle(c, s, led, kv, 0);
    NothingFound(c, s, led, kv);
    NobodyHolds(c, s, led, kv);
    assert SumAppend(c, s.reqs, s.running) == 0 && Start(0, c.B) == 0 && FreeAmong(s.pool, []) == {};
    SlotsFit(c, Reach(c, s));
  }

  /** New, it is admitted. */
  lemma WaitsGoes(net: Net, c: Config, s: Sys, led: Ledger, kv: Memory, t: seq<Token>)
    requires Lone(net, c, s, led, kv, t) && s.waiting == [0]
    ensures Goes(c, s)
  {
    hide Lone, Nearly, OneWaits, Fits, Portion, PlanOk, Schedule, Scheduled, Admit, OwnsLast;
    LoneWaits(net, c, s, led, kv, t);
    var led' := OneBatch(c, s, led, kv, 0, []);
    var n := Portion(c, s, 0, []);
    assert Start(0, c.B) == 0 && [0] + s.running == [0];
    ConsistentAt(c, s, led, kv);
    AdmitOwns(c, s, led, kv, 0, [], n);
  }

  /** Inside its prompt, it goes on. */
  lemma ChunkGoes(net: Net, c: Config, s: Sys, led: Ledger, kv: Memory, t: seq<Token>)
    requires Lone(net, c, s, led, kv, t) && s.waiting != [0] && s.chunked == Some(0)
    ensures Goes(c, s)
  {
    hide Nearly, Faithful, OwnsLast, Schedule, Scheduled, ScheduleAppend, Quiescent;
    var n := Reach(c, s) - s.reqs[0].cached;
    ChunkProgress(c, s, led, kv);
    SlotsFit(c, Reach(c, s));
    ChunkFacts(c, s, led, kv, 0, n);
    var led' := ChunkSchedule(c, s, led, kv, 0, n);
    AppendOwns(c, s, led, 0, n);
  }

  lemma ChunkProgress(c: Config, s: Sys, led: Ledger, kv: Memory)
    requires AtRest(c, s, led, kv) && |s.reqs| == 1 && s.chunked == Some(0)
    ensures s.reqs[0].cached < s.reqs[0].numPrompt <= |s.reqs[0].tokens|
  {
    hide Quiescent;
    assert Progress(s, 0) && ReqLimits(c, s.reqs[0]);
  }

  lemma RunsFacts(c: Config, s: Sys, led: Ledger, kv: Memory)
    requires AtRest(c, s, led, kv) && |s.reqs| == 1 && s.chunked.None? && s.running == [0] && c.maxBatch > 0
    requires s.reqs[0].cached < Start(c.numBlocks, c.B)
    ensures DecodeFits(c, s) && PreemptTail(c, s) == Ok(s) && World(c, s.pool, s.reqs, led)
    ensures s.reqs[0].newToks == 0 && |s.reqs[0].tokens| == s.reqs[0].cached + 1
  {
    hide World, KvComplete;
    assert Placed(s, 0) && Progress(s, 0);
    assert Aligned(c, s.pool.pages, s.reqs[0]);
    forall y: nat | y < |s.reqs| && s.reqs[y].status == Running
      ensures Some(0) == Some(y)
    {
    }
    RestFree(c, s, led, kv, Some(0));
    assert s.running[1..] == [];
    assert SumAppend(c, s.reqs, s.running) == NumBlocksToAppend(c, s.reqs[0], 1) + SumAppend(c, s.reqs, []);
    SlotsFit(c, s.reqs[0].cached + 1);
    RestWorld(c, s, led, kv);
  }

  /** Behind its prompt, it decodes while there is room. */
  lemma RunsGoes(net: Net, c: Config, s: Sys, led: Ledger, kv: Memory, t: seq<Token>)
    requires Lone(net, c, s, led, kv, t) && s.running == [0] && s.reqs[0].cached < Start(c.numBlocks, c.B)
    ensures Goes(c, s)
  {
    hide AtRest, DecodeFits, Faithful, OwnsLast, Scheduled, ScheduleAppend, World, PreemptTail;
    RunsFacts(c, s, led, kv);
    RestIsSteppable(c, s, led, kv);
    DecodesAlone(c, s, led, kv);
    AppendOwns(c, s, led, 0, 1);
  }

  /** A step that only decodes one request. */
  lemma DecodesAlone(c: Config, s: Sys, led: Ledger, kv: Memory)
    requires AtRest(c, s, led, kv) && DecodeFits(c, s) && PreemptTail(c, s) == Ok(s) && s.waiting == []
             && s.chunked.None? && s.running == [0] && |s.reqs| == 1
    ensures Schedule(c, s).Ok? && Schedule(c, s).value.seqs == [0] && ScheduleAppend(c, s, 0, 1).Ok?
    ensures Schedule(c, s).value.sys == ScheduleAppend(c, s, 0, 1).value
  {
    hide AtRest, DecodeFits, Scheduled, PreemptTail, ScheduleAppend, Nearly, SumAppend;
    var led', m := ScheduleFromOk(c, s, led, kv);
    FrozenEnd(c, s, map[], [], c.maxBatch - 1, |s.pool.free| - SumAppend(c, s.reqs, s.running), {}, s.Live(), []);
    assert Ids([]) == [] && [0][1..] == [];
  }

  // ---------------------------------------------------------------- until it fills the pool, and then

  lemma LoneFills(net: Net, c: Config, s: Sys, led: Ledger, kv: Memory, t: seq<Token>)
    requires Lone(net, c, s, led, kv, t) && s.running == [0] && s.reqs[0].cached == Start(c.numBlocks, c.B)
    requires Refills(c, s.reqs[0].numPrompt, Start(FirstRepeat(c, t, c.numBlocks), c.B))
    ensures Filling(c, s, led, kv, 0, Start(c.numBlocks, c.B))
    ensures OnCourse(c, s.reqs[0].numPrompt, Start(c.numBlocks, c.B))
    ensures Fills(c, s.reqs[0].numPrompt, FoundAgain(c, s.reqs[0]))
  {
    hide Quiescent, Refills, Decode, OwnsLast;
    var r := s.reqs[0];
    assert Progress(s, 0);
    DecodeExtends(net, c, r, r.tokens);
    PrefixRepeat(c, r.tokens, t, c.numBlocks);
    RefillsExactly(c, r.numPrompt, FoundAgain(c, r));
  }

  lemma LoneAtRest(net: Net, c: Config, s: Sys, led: Ledger, kv: Memory, t: seq<Token>)
    requires Lone(net, c, s, led, kv, t)
    ensures AtRest(c, s, led, kv) && !s.IsFinished() && !Cut(s) && |s.reqs| == 1
    ensures s.waiting == [0] || s.chunked == Some(0) || (s.running == [0]
                                                         && s.reqs[0].cached <= Start(c.numBlocks, c.B))
  {
    hide Nearly, Faithful, OwnsLast;
  }

  /** The request finds itself where it was, for ever. */
  lemma {:induction false} LoneLoops(net: Net, c: Config, e: Engine, led: Ledger, kv: Memory, t: seq<Token>, n: nat)
    requires Lone(net, c, e.sys, led, kv, t) && Holds(net, e.mems, kv)
    requires Refills(c, e.sys.Get(0).numPrompt, Start(FirstRepeat(c, t, c.numBlocks), c.B))
    ensures !EndsWithin(net, c, e, n) && SafeGenerate(net, c, e, n)
    decreases n
  {
    hide Lone, AtRest, Nearly, Holds, Step, Schedule, Filling, Fills, OnCourse, Refills, FoundAgain, PreemptTail,
         Computes, Cut,
         DecodeFits;
    var s := e.sys;
    LoneAtRest(net, c, s, led, kv, t);
    if s.waiting != [0] && s.chunked != Some(0) && s.reqs[0].cached == Start(c.numBlocks, c.B) {
      LoneFills(net, c, s, led, kv, t);
      CourseLoops(net, c, e, led, kv, 0, Start(c.numBlocks, c.B), n);
    } else {
      if s.waiting == [0] {
        WaitsGoes(net, c, s, led, kv, t);
      } else if s.chunked == Some(0) {
        ChunkGoes(net, c, s, led, kv, t);
      } else {
        RunsGoes(net, c, s, led, kv, t);
      }
      var led', kv' := LoneStep(net, c, e, led, kv, t, Schedule(c, s).value, Reach(c, s));
      if n > 0 {
        LoneLoops(net, c, Step(net, c, e).value, led', kv', t, n - 1);
      }
    }
  }

  // ---------------------------------------------------------------- from the start

  /** Where the engine begins, with its one request. */
  lemma LoneStart(net: Net, c: Config, mems: Layers, prompt: seq<Token>, maxTokens: int, ignoreEos: bool)
    requires |mems| == net.layers && forall l :: 0 <= l < |mems| ==> |mems[l]| == Start(c.numBlocks, c.B)
    requires AddRequest(c, InitEngine(c, mems), prompt, maxTokens, ignoreEos).Ok?
    ensures var e := AddRequest(c, InitEngine(c, mems), prompt, maxTokens, ignoreEos).value;
            && AtRest(c, e.sys, map[], BlankMemory(c)) && Holds(net, e.mems, BlankMemory(c))
            && AllFaithful(net, c, e.sys)
            && e.sys.reqs == [Req(prompt, |prompt|, maxTokens, ignoreEos, 0, 0, [], Waiting)]
            && e.sys.waiting == [0] && e.sys.running == [] && e.sys.chunked.None? && e.sys.pool.owner == map[]
            && prompt != [] && Whole(net, c, e.sys.reqs[0]) == Decode(net, c, e.sys.reqs[0], prompt)
  {
    hide Nearly, Holds, BlankMemory, Decode;
    InitOk(net, c, mems);
    var e0 := InitEngine(c, mems);
    AddOk(net, c, e0, map[], BlankMemory(c), prompt, maxTokens, ignoreEos);
    assert [] + [0] == [0];
    var e := AddRequest(c, e0, prompt, maxTokens, ignoreEos).value;
    assert e.sys.reqs == [e.sys.reqs[0]];
    assert prompt[..|prompt|] == prompt;
  }

  /** For a request that is alone from the start the loop has no end exactly if the request outgrows the pool and the
      budget leads it back there; otherwise it ends within an explicit bound. */
  lemma LoneExactly(net: Net, c: Config, mems: Layers, prompt: seq<Token>, maxTokens: int, ignoreEos: bool, n: nat)
    requires |mems| == net.layers && forall l :: 0 <= l < |mems| ==> |mems[l]| == Start(c.numBlocks, c.B)
    requires AddRequest(c, InitEngine(c, mems), prompt, maxTokens, ignoreEos).Ok?
    ensures var e := AddRequest(c, InitEngine(c, mems), prompt, maxTokens, ignoreEos).value;
            && prompt != []
            && if c.maxSeqs > 0 && Overfull(c, |prompt|, Decode(net, c, e.sys.Get(0), prompt)) then
                 !EndsWithin(net, c, e, n) && SafeGenerate(net, c, e, n)
               else EndsWithin(net, c, e, Measure(c, e.sys) + 1 + DropBound(c))
  {
    hide AtRest, Nearly, Holds, BlankMemory, Decode, InitEngine, AddRequest, EndsWithin, SafeGenerate, Measure,
         DropBound,
         Refills, Whole;
    LoneStart(net, c, mems, prompt, maxTokens, ignoreEos);
    var e := AddRequest(c, InitEngine(c, mems), prompt, maxTokens, ignoreEos).value;
    var t := Whole(net, c, e.sys.reqs[0]);
    var kv := BlankMemory(c);
    if c.maxSeqs > 0 && Overfull(c, |prompt|, t) {
      LoneIs(net, c, e.sys, kv, t);
      LoneLoops(net, c, e, map[], kv, t, n);
    } else {
      RestIsSteppable(c, e.sys, map[], kv);
      NotDoomed(net, c, e, map[], kv, Measure(c, e.sys) + 1);
      EndsExactly(net, c, e, map[], kv);
    }
  }

  lemma LoneIs(net: Net, c: Config, s: Sys, kv: Memory, t: seq<Token>)
    requires AtRest(c, s, map[], kv) && AllFaithful(net, c, s) && |s.reqs| == 1 && t == Whole(net, c, s.reqs[0])
    requires s.waiting == [0] && s.running == [] && s.chunked.None? && s.pool.owner == map[]
    requires s.reqs[0].cached == 0 && s.reqs[0].newToks == 0 && |s.reqs[0].tokens| == s.reqs[0].numPrompt
    requires s.reqs[0].status == Waiting && c.maxSeqs > 0 && Overfull(c, s.reqs[0].numPrompt, t)
    ensures Lone(net, c, s, map[], kv, t)
  {
    hide Nearly, Faithful, Whole;
    assert Faithful(net, c, s.reqs[0]);
    DivUnique(0, c.B, 0);
  }

  // ---------------------------------------------------------------- one such input

  lemma TwoTokensMore(net: Net, c: Config, r: Req, prompt: seq<Token>)
    requires prompt != [] && r.ignoreEos && r.numPrompt == |prompt| && r.maxTokens >= 2 && |prompt| + 2 <= c.maxLen
    ensures |Decode(net, c, r, prompt)| >= |prompt| + 2
  {
    DecodeExtends(net, c, r, prompt + [NextToken(net, prompt)]);
  }

  lemma TwoBlocks(c: Config, prompt: seq<Token>)
    requires |prompt| == 2 * c.B
    ensures Start(1, c.B) == c.B && Start(2, c.B) == 2 * c.B
    ensures BlockName(c, prompt, 0) == c.hash(prompt[..c.B], -1)
    ensures BlockName(c, prompt, 1) == c.hash(prompt[c.B..], c.hash(prompt[..c.B], -1))
  {
    StartIsProduct(1, c.B);
    StartIsProduct(2, c.B);
    var first := prompt[..c.B];
    assert prompt[..Start(1, c.B)] == first && prompt[..Start(2, c.B)] == prompt;
    assert first[c.B - c.B..] == first && first[..c.B - c.B] == [];
    assert ChainHash(c, []) == -1;
  }

  lemma CollisionOverfull(c: Config, prompt: seq<Token>, t: seq<Token>)
    requires c.numBlocks == 2 && c.chunked && c.maxBatch == 2 * c.B == |prompt| && prompt <= t && |prompt| + 2 <= |t|
    requires c.hash(prompt[c.B..], c.hash(prompt[..c.B], -1)) == c.hash(prompt[..c.B], -1)
    ensures Overfull(c, |prompt|, t)
  {
    hide BlockHash, BlockName;
    TwoBlocks(c, prompt);
    PrefixRepeat(c, prompt, t, 2);
    assert BlockName(c, prompt, 0) == BlockName(c, prompt, 1);
    assert FirstRepeat(c, prompt, 2) == 0;
    DividesStep(c.maxBatch, c.maxBatch);
    DividesSmall(c.maxBatch, 0);
  }

  /** Two pages, a budget of two pages, and a prompt that fills both of them and whose two blocks hash alike: `generate`
      never returns and never raises. */
  lemma EndlessInput(net: Net, c: Config, mems: Layers, prompt: seq<Token>, maxTokens: int, n: nat)
    requires c.numBlocks == 2 && c.chunked && c.maxSeqs > 0 && c.maxBatch == 2 * c.B && c.maxLen >= 2 * c.B + 2
    requires |mems| == net.layers && forall l :: 0 <= l < |mems| ==> |mems[l]| == 2 * c.B
    requires |prompt| == 2 * c.B && maxTokens >= 2
    requires c.hash(prompt[c.B..], c.hash(prompt[..c.B], -1)) == c.hash(prompt[..c.B], -1)
    ensures var added := AddRequest(c, InitEngine(c, mems), prompt, maxTokens, true);
            added.Ok? && !EndsWithin(net, c, added.value, n) && SafeGenerate(net, c, added.value, n)
  {
    hide Decode, InitEngine, EndsWithin, SafeGenerate, Measure, BlankMemory, AtRest, Holds, Overfull, Whole,
         AllFaithful;
    StartIsProduct(2, c.B);
    LoneStart(net, c, mems, prompt, maxTokens, true);
    LoneExactly(net, c, mems, prompt, maxTokens, true, n);
    var r := Req(prompt, |prompt|, maxTokens, true, 0, 0, [], Waiting);
    TwoTokensMore(net, c, r, prompt);
    DecodeExtends(net, c, r, prompt);
    CollisionOverfull(c, prompt, Decode(net, c, r, prompt));
  }
}
