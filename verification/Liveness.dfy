/** No deadlock: a pool that holds one request of maximal length always lets some request go on. */
module Liveness {
  import opened Arith
  import opened Seqs
  import opened Requests
  import opened Pages
  import opened CacheInvariant
  import opened KvMemory
  import opened Matching
  import opened Boundary
  import opened Scheduling
  import opened SchedulerState
  import opened Prefill
  import opened Steps
  import opened Frozen
  import opened Ranking

  /** The pool holds one request of maximal length, and one step can compute its prompt or part of it. */
  predicate Ample(c: Config) {
    && c.maxSeqs >= 1 && c.maxBatch >= 1
    && Ceil(Max(c.maxLen - 1, 0), c.B) <= c.numBlocks
    && (c.chunked || c.maxBatch >= c.maxLen - 1)
  }

  // ---------------------------------------------------------------- counting free pages

  ghost function Range(n: nat): set<nat> {
    if n == 0 then {} else Range(n - 1) + {n - 1}
  }

  lemma {:induction false} RangeCard(n: nat)
    ensures |Range(n)| == n
    ensures forall b: nat :: b in Range(n) <==> b < n
  {
    if n > 0 {
      RangeCard(n - 1);
    }
  }

  /** Two disjoint lists that together name all pages have as many entries as there are pages. */
  lemma PartitionCount(a: seq<nat>, b: seq<nat>, n: nat)
    requires NoDup(a) && NoDup(b) && AllBelow(a, n) && AllBelow(b, n)
    requires forall x: nat :: x < n ==> (x in a <==> x !in b)
    ensures |a| + |b| == n
  {
    RangeCard(n);
    NoDupCard(a);
    NoDupCard(b);
    assert ToSet(a) + ToSet(b) == Range(n);
    assert ToSet(a) !! ToSet(b);
  }

  /** Only `holder` has pages. */
  ghost predicate OnlyHolder(reqs: seq<Req>, holder: Option<nat>) {
    && (holder.Some? ==> holder.value < |reqs|)
    && forall x: nat :: x < |reqs| && holder != Some(x) ==> reqs[x].table == []
  }

  function Held(reqs: seq<Req>, holder: Option<nat>): seq<nat> {
    if holder.Some? && holder.value < |reqs| then reqs[holder.value].table else []
  }

  lemma FreeUnlessHeld(pool: Pool, reqs: seq<Req>, holder: Option<nat>, b: nat)
    requires OnlyHolder(reqs, holder) && b < |pool.pages| && RefOk(pool, reqs, b)
    ensures b in pool.free <==> b !in Held(reqs, holder)
  {
    if b in Held(reqs, holder) {
      assert holder.value in Users(reqs, b);
    } else {
      assert Users(reqs, b) == {};
    }
  }

  /** If one request holds all the pages in use, everything else is free. */
  lemma FreeCount(c: Config, pool: Pool, reqs: seq<Req>, led: Ledger, holder: Option<nat>)
    requires World(c, pool, reqs, led) && OnlyHolder(reqs, holder)
    ensures |pool.free| + |Held(reqs, holder)| == |pool.pages|
  {
    var t := Held(reqs, holder);
    if holder.Some? {
      assert TableOk(c, pool.pages, led, reqs[holder.value]);
    }
    forall b: nat | b < |pool.pages|
      ensures b in pool.free <==> b !in t
    {
      assert RefOk(pool, reqs, b);
      FreeUnlessHeld(pool, reqs, holder, b);
    }
    PartitionCount(pool.free, t, |pool.pages|);
  }

  lemma RestFree(c: Config, s: Sys, led: Ledger, kv: Memory, holder: Option<nat>)
    requires Nearly(c, s, led, kv) && (holder.Some? ==> holder.value < |s.reqs|)
    requires forall x: nat :: x < |s.reqs| && s.reqs[x].status == Running ==> holder == Some(x)
    ensures |s.pool.free| + |Held(s.reqs, holder)| == c.numBlocks
  {
    hide Quiescent;
    forall x: nat | x < |s.reqs| && holder != Some(x)
      ensures s.reqs[x].table == []
    {
      assert Placed(s, x);
      if s.running != [] {
        assert Placed(s, s.running[|s.running| - 1]);
      }
      assert Progress(s, x);
    }
    RestWorld(c, s, led, kv);
    FreeCount(c, s.pool, s.reqs, led, holder);
  }

  /** No live request ever needs more pages than the pool has. */
  lemma LiveFits(c: Config, s: Sys, led: Ledger, kv: Memory, id: nat, n: nat)
    requires Nearly(c, s, led, kv) && Ample(c) && id < |s.reqs| && s.reqs[id].status != Finished
             && n <= |s.reqs[id].tokens|
    ensures Ceil(n, c.B) <= c.numBlocks
  {
    hide Quiescent;
    assert ReqLimits(c, s.reqs[id]);
    CeilMono(n, c.maxLen - 1, c.B);
  }

  // ---------------------------------------------------------------- the chunk always gets something

  lemma ChunkFits(c: Config, s: Sys, led: Ledger, kv: Memory)
    requires AtRest(c, s, led, kv) && Ample(c) && s.running == [] && s.chunked.Some?
    ensures var plan := PlanChunk(c, s, c.maxBatch, |s.pool.free|);
            plan.Ok? && ChunkIds(s, plan.value) != []
  {
    hide Quiescent;
    var id := s.chunked.value;
    assert Placed(s, id) && Progress(s, id) && ReqLimits(c, s.reqs[id]);
    forall x: nat | x < |s.reqs| && s.reqs[x].status == Running
      ensures s.chunked == Some(x)
    {
      assert Placed(s, x);
    }
    RestFree(c, s, led, kv, s.chunked);
    var n := Min(|s.reqs[id].tokens| - s.reqs[id].cached, c.maxBatch);
    LiveFits(c, s, led, kv, id, s.reqs[id].cached + n);
  }

  // ---------------------------------------------------------------- the first candidate is always admitted

  lemma CachedFreeBound(pool: Pool, ids: seq<nat>)
    requires NoDup(ids)
    ensures CachedFree(pool, ids) <= |ids|
  {
    NoDupCard(ids);
    SubsetCard(FreeAmong(pool, ids), ToSet(ids));
  }

  /** With every page free, the first candidate's claim and allocation fit. */
  lemma FirstFits(c: Config, s: Sys, led: Ledger, kv: Memory, id: nat, ids: seq<nat>)
    requires AtRest(c, s, led, kv) && Ample(c) && s.running == [] && s.chunked.None?
    requires id < |s.reqs| && id in s.waiting && PlanOk(c, s.pool, led, s.reqs[id], ids)
    ensures |s.pool.free| == c.numBlocks && Start(|ids|, c.B) < |s.reqs[id].tokens|
    ensures var remaining := |s.reqs[id].tokens| - Start(|ids|, c.B);
            var n := Min(remaining, c.maxBatch);
            && n > 0 && (c.chunked || remaining <= c.maxBatch)
            && RequiredForAdmission(c, s.pool, ids, n) <= c.numBlocks
            && |FreeAmong(s.pool, ids) - {}| + Ceil(n, c.B) <= c.numBlocks
  {
    hide Quiescent, PlanOk;
    WaitingIdle(c, s, led, kv, id);
    assert Placed(s, id) && ReqLimits(c, s.reqs[id]);
    forall x: nat | x < |s.reqs|
      ensures s.reqs[x].status != Running
    {
      assert Placed(s, x);
    }
    RestFree(c, s, led, kv, None);
    PlanLeavesToken(c, s.pool, led, s.reqs[id], ids);
    PlanDistinct(c, s.pool, led, s.reqs[id], ids);
    CachedFreeBound(s.pool, ids);
    var n := Min(|s.reqs[id].tokens| - Start(|ids|, c.B), c.maxBatch);
    CeilSplit(|ids|, n, c.B);
    LiveFits(c, s, led, kv, id, Start(|ids|, c.B) + n);
    assert FreeAmong(s.pool, ids) - {} == FreeAmong(s.pool, ids);
  }

  lemma {:induction false} CommitGrows(c: Config, s: Sys, ranked: seq<nat>, budget: nat, reserved: nat, active: nat,
                                       committed: seq<nat>)
    ensures var res := CommitSameStep(c, s, ranked, budget, reserved, active, committed);
            res.Ok? ==> committed <= res.value.1
    decreases |ranked|
  {
    hide Admit, Decide;
    if ranked != [] {
      var d := Decide(c, s, ranked[0], budget, reserved);
      if d.Ok? && d.value.Take? {
        var s' := Admit(c, s, ranked[0], d.value.blocks, d.value.tokens);
        if s'.Ok? {
          CommitGrows(c, s'.value, ranked[1..], budget - d.value.tokens, reserved, active, committed + [ranked[0]]);
        }
      }
    }
  }

  lemma {:induction false} PlanGrows(c: Config, s: Sys, prefixes: Prefixes, ranked: seq<nat>, tokenBudget: nat,
                                     freeBudget: nat,
                                     protected: set<nat>, active: nat, adm: seq<Admission>)
    ensures var res := PlanFrozen(c, s, prefixes, ranked, tokenBudget, freeBudget, protected, active, adm);
            res.Ok? ==> adm <= res.value
    decreases |ranked|
  {
    hide PlanRound;
    if ranked != [] {
      var d := PlanRound(c, s, prefixes, ranked[0], tokenBudget, freeBudget, protected);
      if d.Ok? && d.value.PlanTake? {
        PlanGrows(c, s, prefixes, ranked[1..], tokenBudget - d.value.tokens, freeBudget - d.value.cost,
                  protected + d.value.newly, active,
                  adm + [d.value.admission]);
      }
    }
  }

  lemma FirstCommitted(c: Config, s: Sys, led: Ledger, kv: Memory, ranked: seq<nat>)
    requires AtRest(c, s, led, kv) && Ample(c) && s.running == [] && s.chunked.None?
    requires ranked != [] && ranked[0] in s.waiting
    ensures var res := CommitSameStep(c, s, ranked, c.maxBatch, 0, 0, []);
            res.Ok? ==> res.value.1 != []
  {
    hide Quiescent, PlanOk, Admit, MatchPrefix, RequiredForAdmission;
    var id := ranked[0];
    WaitingIdle(c, s, led, kv, id);
    RestWorld(c, s, led, kv);
    MatchPrefixSound(c, s.pool, s.reqs, led, id);
    var latest := MatchPrefix(c, s.pool, s.reqs[id]).value;
    FirstFits(c, s, led, kv, id, latest);
    var n := Min(|s.reqs[id].tokens| - Start(|latest|, c.B), c.maxBatch);
    var s' := Admit(c, s, id, latest, n);
    if s'.Ok? {
      assert [] + [id] == [id];
      CommitGrows(c, s'.value, ranked[1..], c.maxBatch - n, 0, 0, [id]);
    }
  }

  lemma FirstPlanned(c: Config, s: Sys, led: Ledger, kv: Memory, prefixes: Prefixes, ranked: seq<nat>)
    requires AtRest(c, s, led, kv) && Ample(c) && s.running == [] && s.chunked.None?
    requires ranked != [] && ranked[0] in s.waiting
    requires ranked[0] < |s.reqs| && ranked[0] in prefixes
             && PlanOk(c, s.pool, led, s.reqs[ranked[0]], prefixes[ranked[0]])
    ensures var res := PlanFrozen(c, s, prefixes, ranked, c.maxBatch, c.numBlocks, {}, 0, []);
            res.Ok? ==> res.value != []
  {
    hide AtRest, PlanOk, PlanRound;
    var id := ranked[0];
    FirstTaken(c, s, led, kv, prefixes, id);
    var d := PlanRound(c, s, prefixes, id, c.maxBatch, c.numBlocks, {}).value;
    assert [] + [d.admission] == [d.admission];
    PlanGrows(c, s, prefixes, ranked[1..], c.maxBatch - d.tokens, c.numBlocks - d.cost, {} + d.newly, 0, [d.admission]);
  }

  lemma FirstTaken(c: Config, s: Sys, led: Ledger, kv: Memory, prefixes: Prefixes, id: nat)
    requires AtRest(c, s, led, kv) && Ample(c) && s.running == [] && s.chunked.None?
    requires id in s.waiting && id < |s.reqs| && id in prefixes && PlanOk(c, s.pool, led, s.reqs[id], prefixes[id])
    ensures var d := PlanRound(c, s, prefixes, id, c.maxBatch, c.numBlocks, {});
            d.Ok? && d.value.PlanTake?
  {
    hide Quiescent, PlanOk, FreeAmong;
    WaitingIdle(c, s, led, kv, id);
    FirstFits(c, s, led, kv, id, prefixes[id]);
  }

  // ---------------------------------------------------------------- no deadlock

  /** With nobody running, somebody is still given tokens. */
  lemma PrefillMoves(c: Config, s: Sys, led: Ledger, kv: Memory)
    requires AtRest(c, s, led, kv) && Ample(c) && s.running == [] && !s.IsFinished()
    ensures !EmptyPrefill(c, s)
  {
    hide AtRest, Nearly, Quiescent, PrefillStep, RankedWaiting, PlanChunk, Snapshot;
    EmptyReservation(c, s);
    RestIsSteppable(c, s, led, kv);
    PlanStepOk(c, s, led, kv);
    var p := PlanStep(c, s).value;
    if s.chunked.Some? {
      ChunkFits(c, s, led, kv);
    } else {
      PlanChunkNone(c, s);
      RankedWaitingOk(c, s, led, kv, p.chunk);
      AdmissionMoves(c, s, led, kv, p);
    }
  }

  lemma EmptyReservation(c: Config, s: Sys)
    requires s.running == []
    ensures SumAppend(c, s.reqs, s.running) == 0
  {
  }

  lemma PlanChunkNone(c: Config, s: Sys)
    requires s.chunked.None?
    ensures PlanChunk(c, s, c.maxBatch, |s.pool.free|) == Ok(ChunkPlan(false, 0, 0, true, c.maxBatch, |s.pool.free|))
  {
  }

  lemma AdmissionMoves(c: Config, s: Sys, led: Ledger, kv: Memory, p: StepPlan)
    requires AtRest(c, s, led, kv) && Ample(c) && s.running == [] && s.chunked.None?
    requires p.chunk == ChunkPlan(false, 0, 0, true, c.maxBatch, |s.pool.free|) && p.reserved == 0
    requires p.ranked != [] && p.ranked[0] in s.waiting && Snapshot(c, s, led, p.prefixes, p.ranked)
    ensures PrefillStep(c, s, p).Ok? ==> PrefillStep(c, s, p).value.1 != []
  {
    hide AtRest, CommitSameStep, PlanFrozen, ClaimAdmitted, AllocateAdmitted;
    if c.sameStep {
      FirstCommitted(c, s, led, kv, p.ranked);
    } else {
      FirstFitsFree(c, s, led, kv, p.ranked[0], p.prefixes[p.ranked[0]]);
      FirstPlanned(c, s, led, kv, p.prefixes, p.ranked);
    }
  }

  lemma FirstFitsFree(c: Config, s: Sys, led: Ledger, kv: Memory, id: nat, ids: seq<nat>)
    requires AtRest(c, s, led, kv) && Ample(c) && s.running == [] && s.chunked.None?
    requires id < |s.reqs| && id in s.waiting && PlanOk(c, s.pool, led, s.reqs[id], ids)
    ensures |s.pool.free| == c.numBlocks
  {
    FirstFits(c, s, led, kv, id, ids);
  }

  /** A running request alone always fits. */
  lemma AloneFits(c: Config, s: Sys, led: Ledger, kv: Memory)
    requires Nearly(c, s, led, kv) && Ample(c) && s.chunked.None? && |s.running| == 1
    ensures DecodeFits(c, s)
  {
    hide Quiescent;
    var id := s.running[0];
    assert Placed(s, id) && (!Cut(s) ==> Progress(s, id));
    forall x: nat | x < |s.reqs| && s.reqs[x].status == Running
      ensures x == id
    {
      assert Placed(s, x);
    }
    RestFree(c, s, led, kv, Some(id));
    LiveFits(c, s, led, kv, id, s.reqs[id].cached + 1);
    assert s.running[1..] == [];
    assert SumAppend(c, s.reqs, s.running) == NumBlocksToAppend(c, s.reqs[id], 1) + SumAppend(c, s.reqs, []);
  }

  /** Preemption never empties the running queue, unless a chunk holds pages. */
  lemma FirstRunningStays(c: Config, s: Sys, led: Ledger, kv: Memory)
    requires Steppable(c, s, led, kv) && Ample(c) && s.chunked.None? && s.running != []
    ensures PreemptTail(c, s).Ok? && PreemptTail(c, s).value.running != []
  {
    hide Nearly, AtRest, DecodeFits, Preempt;
    var k := PreemptTailLongest(c, s, led, kv);
    if |s.running| == 1 {
      AloneFits(c, s, led, kv);
      assert PreemptTo(c, s, 1) == Ok(s);
    } else {
      PreemptToOk(c, s, led, kv, 1);
      var s1 := PreemptTo(c, s, 1).value;
      RestIsSteppable(c, s1, led, kv);
      AloneFits(c, s1, led, kv);
    }
  }

  /** No deadlock: whatever is left to do, `schedule` returns a batch with work in it; neither the assertions
      nor the two exceptions about missing budget are ever reached. */
  lemma NoDeadlock(c: Config, s: Sys, led: Ledger, kv: Memory) returns (led': Ledger)
    requires Steppable(c, s, led, kv) && Ample(c) && !s.IsFinished()
    ensures Schedule(c, s).Ok?
    ensures Scheduled(c, PreemptTail(c, s).value, Schedule(c, s).value, led', kv)
    ensures Schedule(c, s).value.seqs != []
  {
    hide AtRest, Steppable, Quiescent, EmptyPrefill, ScheduleFrom, DecodeFits, Mid;
    var k := PreemptTailLongest(c, s, led, kv);
    var s0 := PreemptTail(c, s).value;
    assert !s0.IsFinished() by {
      assert |s.running + s.waiting| == |s0.running + s0.waiting|;
    }
    var m;
    led', m := ScheduleFromOk(c, s0, led, kv);
    if s0.running == [] {
      PrefillMoves(c, s0, led, kv);
    }
    assert ScheduleFrom(c, s0).Err? ==> EmptyPrefill(c, s0);
    EmptyHasNobody(c, s0);
  }

  lemma EmptyHasNobody(c: Config, s: Sys)
    ensures EmptyPrefill(c, s) ==> s.running == []
  {
  }
}
