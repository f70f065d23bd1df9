/** Admission is maximal: what the chunk is given, and exactly why the next waiting request is not admitted, in both
    modes. */
module Maximal {
  import opened Arith
  import opened Seqs
  import opened Requests
  import opened Pages
  import opened CacheInvariant
  import opened KvMemory
  import opened Growth
  import opened Matching
  import opened Boundary
  import opened Scheduling
  import opened SchedulerState
  import opened Prefill
  import opened Frozen
  import opened Ranking
  import opened Steps
  import opened Policy

  // ---------------------------------------------------------------- the frozen plan

  /** The snapshot plan of a request. */
  function PlanFor(prefixes: Prefixes, x: nat): seq<nat> {
    if x in prefixes then prefixes[x] else []
  }

  /** Not admitted behind `adm`: prefills may not be cut and this one is longer than the tokens left, or no tokens are
      left, or its pages, those counted once that others have claimed already, are more than are left. */
  ghost predicate Refused(c: Config, s: Sys, prefixes: Prefixes, adm: seq<Admission>, tokens: nat, free: nat, x: nat) {
    var rest := |s.Get(x).tokens| - Start(|PlanFor(prefixes, x)|, c.B);
    || (!c.chunked && rest > tokens)
    || tokens == 0
    || |FreeAmong(s.pool, PlanFor(prefixes, x)) - ProtectedBy(s.pool, adm)| + Ceil(Max(Min(rest, tokens), 0), c.B)
       > free
  }

  /** Why the plan stops where it does: everybody is in it, no more may run, its last request used up the tokens, or the
      next one is refused. */
  ghost predicate FrozenStops(c: Config, s: Sys, prefixes: Prefixes, ranked: seq<nat>, adm: seq<Admission>, tokens: nat,
                              free: nat, active: nat)
    requires SumTokens(c, adm) <= tokens && |ProtectedBy(s.pool, adm)| + NewPages(c, adm) <= free
  {
    var left := tokens - SumTokens(c, adm);
    || |adm| >= |ranked|
    || active + |adm| >= c.maxSeqs
    || (adm != [] && !Finishing(s, adm[|adm| - 1]) && left == 0)
    || Refused(c, s, prefixes, adm, left, free - |ProtectedBy(s.pool, adm)| - NewPages(c, adm), ranked[|adm|])
  }

  /** Every admission is planned with all its snapshot found. */
  ghost predicate PlannedAsFound(prefixes: Prefixes, adm: seq<Admission>) {
    forall k :: 0 <= k < |adm| ==> adm[k].blocks == PlanFor(prefixes, adm[k].id)
  }

  /** One round: a request is refused, or takes what it may. */
  lemma RoundIs(c: Config, s: Sys, led: Ledger, prefixes: Prefixes, id: nat, adm: seq<Admission>, tokens: nat,
                free: nat,
                tokenBudget: nat, freeBudget: nat, protected: set<nat>)
    requires id < |s.reqs| && id in prefixes && PlanOk(c, s.pool, led, s.reqs[id], prefixes[id])
    requires Idle(s.reqs[id]) && |s.reqs[id].tokens| >= 1
    requires Budgeted(c, s, adm, tokens, free, tokenBudget, freeBudget, protected)
    ensures var d := PlanRound(c, s, prefixes, id, tokenBudget, freeBudget, protected);
            && d.Ok?
            && (d.value.PlanStop? <==> Refused(c, s, prefixes, adm, tokenBudget, freeBudget, id))
            && (d.value.PlanTake? ==>
                  && d.value.admission.blocks == PlanFor(prefixes, id)
                  && (d.value.partial ==> d.value.tokens == tokenBudget))
  {
    hide PlanOk, FreeAmong, ProtectedBy, NewPages, SumTokens;
    PlanLeavesToken(c, s.pool, led, s.reqs[id], prefixes[id]);
  }

  lemma AsFoundSnoc(prefixes: Prefixes, adm: seq<Admission>, a: Admission)
    requires PlannedAsFound(prefixes, adm) && a.blocks == PlanFor(prefixes, a.id)
    ensures PlannedAsFound(prefixes, adm + [a])
  {
  }

  /** The planning loop stops for no other reason. */
  lemma {:induction false} PlanFrozenStops(c: Config, s: Sys, led: Ledger, prefixes: Prefixes, all: seq<nat>,
                                           ranked: seq<nat>, tokens: nat, free: nat, tokenBudget: nat, freeBudget: nat,
                                           protected: set<nat>, active: nat, adm: seq<Admission>)
    requires Snapshot(c, s, led, prefixes, all) && |adm| <= |all| && ranked == all[|adm|..]
    requires forall k :: 0 <= k < |all| ==> Idle(s.reqs[all[k]]) && |s.reqs[all[k]].tokens| >= 1
    requires PlannedAsFound(prefixes, adm) && Budgeted(c, s, adm, tokens, free, tokenBudget, freeBudget, protected)
    ensures PlanFrozen(c, s, prefixes, ranked, tokenBudget, freeBudget, protected, active, adm).Ok?
    ensures var out := PlanFrozen(c, s, prefixes, ranked, tokenBudget, freeBudget, protected, active, adm).value;
            && SumTokens(c, out) <= tokens && |ProtectedBy(s.pool, out)| + NewPages(c, out) <= free
            && FrozenStops(c, s, prefixes, all, out, tokens, free, active) && PlannedAsFound(prefixes, out)
    decreases |ranked|
  {
    hide PlanOk, Budgeted, ProtectedBy, NewPages, SumTokens, PlanRound, Planned, FreeAmong, NewTokens, Refused,
         PlannedAsFound, Finishing;
    BudgetLeft(c, s, adm, tokens, free, tokenBudget, freeBudget, protected);
    if ranked != [] && active + |adm| < c.maxSeqs {
      var id := ranked[0];
      assert id == all[|adm|];
      PlanRoundOk(c, s, led, prefixes, id, tokenBudget, freeBudget, protected);
      RoundIs(c, s, led, prefixes, id, adm, tokens, free, tokenBudget, freeBudget, protected);
      var d := PlanRound(c, s, prefixes, id, tokenBudget, freeBudget, protected).value;
      if d.PlanTake? {
        var adm' := adm + [d.admission];
        BudgetStep(c, s, adm, d.admission, tokens, free, tokenBudget, freeBudget, protected);
        AsFoundSnoc(prefixes, adm, d.admission);
        BudgetLeft(c, s, adm', tokens, free, tokenBudget - d.tokens, freeBudget - d.cost, protected + d.newly);
        if !d.partial {
          PlanFrozenStops(c, s, led, prefixes, all, ranked[1..], tokens, free, tokenBudget - d.tokens,
                          freeBudget - d.cost, protected + d.newly, active, adm');
        }
      }
    }
  }

  lemma BudgetLeft(c: Config, s: Sys, adm: seq<Admission>, tokens: nat, free: nat, tokenBudget: nat, freeBudget: nat,
                   protected: set<nat>)
    requires Budgeted(c, s, adm, tokens, free, tokenBudget, freeBudget, protected)
    ensures tokenBudget == tokens - SumTokens(c, adm)
    ensures freeBudget == free - |ProtectedBy(s.pool, adm)| - NewPages(c, adm)
  {
  }

  /** For the step: the frozen plan is the first of the ranking, each with all it found, and it stops there. */
  lemma FrozenMaximal(c: Config, s: Sys, led: Ledger, kv: Memory)
    requires AtRest(c, s, led, kv) && DecodeFits(c, s) && PlanStep(c, s).Ok?
    ensures var p := PlanStep(c, s).value;
            var plan := PlanFrozen(c, s, p.prefixes, p.ranked, p.chunk.tokenBudget, p.chunk.freeBudget, {}, s.Live(),
                                   []);
            && plan.Ok? && |plan.value| <= |p.ranked| && Ids(plan.value) == p.ranked[..|plan.value|]
            && FrozenPlan(c, s, led, p.ranked, plan.value, p.chunk.tokenBudget, p.chunk.freeBudget, s.Live())
            && SumTokens(c, plan.value) <= p.chunk.tokenBudget
            && |ProtectedBy(s.pool, plan.value)| + NewPages(c, plan.value) <= p.chunk.freeBudget
            && FrozenStops(c, s, p.prefixes, p.ranked, plan.value, p.chunk.tokenBudget, p.chunk.freeBudget, s.Live())
            && PlannedAsFound(p.prefixes, plan.value)
  {
    hide AtRest, Nearly, DecodeFits, PlanStep, Snapshot, Candidates, PlanFrozen, Budgeted, FrozenPlan, FrozenStops,
         PlannedAsFound, RankedWaiting;
    RestIsSteppable(c, s, led, kv);
    PlanStepOk(c, s, led, kv);
    var p := PlanStep(c, s).value;
    var tokens, free := p.chunk.tokenBudget, p.chunk.freeBudget;
    RankedWaitingOk(c, s, led, kv, p.chunk);
    FrozenPlanStart(c, s, led, p.ranked, tokens, free, s.Live());
    NothingPlanned(p.prefixes);
    PlanFrozenOk(c, s, led, p.prefixes, p.ranked, p.ranked, tokens, free, tokens, free, {}, s.Live(), []);
    PlanFrozenStops(c, s, led, p.prefixes, p.ranked, p.ranked, tokens, free, tokens, free, {}, s.Live(), []);
    FrozenBudgets(c, s, led, p.ranked,
                  PlanFrozen(c, s, p.prefixes, p.ranked, tokens, free, {}, s.Live(), []).value, tokens, free);
  }

  lemma NothingPlanned(prefixes: Prefixes)
    ensures PlannedAsFound(prefixes, [])
  {
  }

  // ---------------------------------------------------------------- same-step admission

  /** Not admitted in this state: longer than the tokens left and not to be cut, no tokens left, or too many pages. */
  predicate RefusedNow(c: Config, s: Sys, tokens: nat, reserved: nat, x: nat) {
    var found := Cached(c, s, x);
    var rest := |s.Get(x).tokens| - Start(|found|, c.B);
    || (!c.chunked && rest > tokens)
    || tokens == 0
    || RequiredForAdmission(c, s.pool, found, Max(Min(rest, tokens), 0)) + reserved > |s.pool.free|
  }

  /** Why the loop stops behind the first `m` of the ranking, leaving state `s'` and so many tokens. */
  ghost predicate CommitStopsAt(c: Config, s': Sys, ranked: seq<nat>, m: nat, tokens: int, reserved: nat, active: nat) {
    && 0 <= tokens
    && (|| m >= |ranked|
        || active + m >= c.maxSeqs
        || (m > 0 && !Complete(s', ranked[m - 1]) && tokens == 0)
        || RefusedNow(c, s', tokens, reserved, ranked[m]))
  }

  /** One round of the loop. */
  lemma DecideIs(c: Config, s0: Sys, s: Sys, led: Ledger, kv: Memory, pre: seq<nat>, ranked: seq<nat>, budget: nat,
                 reserved: nat)
    requires Mid(c, s0, s, led, kv, pre) && Candidates(s0, pre, ranked) && ranked != []
    requires forall id: nat :: id < |s0.reqs| ==> ReqLimits(c, s0.reqs[id])
    requires reserved <= |s.pool.free|
    ensures ranked[0] < |s.reqs|
    ensures var d := Decide(c, s, ranked[0], budget, reserved);
            var found := Cached(c, s, ranked[0]);
            && d.Ok? && (d.value.Stop? <==> RefusedNow(c, s, budget, reserved, ranked[0]))
            && (d.value.Take? ==>
                  && d.value.blocks == found && AdmitReady(c, s0, s, led, pre, ranked[0], found, d.value.tokens)
                  && d.value.tokens == Min(|s.reqs[ranked[0]].tokens| - Start(|found|, c.B), budget)
                  && RequiredForAdmission(c, s.pool, found, d.value.tokens) + reserved <= |s.pool.free|
                  && (d.value.partial <==> d.value.tokens < |s.reqs[ranked[0]].tokens| - Start(|found|, c.B)))
  {
    hide Mid, MatchPrefix, PlanOk, RequiredForAdmission;
    CommitReady(c, s0, s, led, kv, pre, ranked);
    MidLengths(c, s0, s, led, kv, pre);
  }

  lemma PartStops(c: Config, s: Sys, s1: Sys, pre: seq<nat>, ranked: seq<nat>, budget: nat, reserved: nat, active: nat)
    requires ranked != [] && ranked[0] < |s1.reqs| && s1.reqs[ranked[0]].Context() < |s1.reqs[ranked[0]].tokens|
    requires SumNew(s1.reqs, pre + [ranked[0]]) == SumNew(s.reqs, pre) + budget
    ensures CommitStopsAt(c, s1, ranked, 1, budget + SumNew(s.reqs, pre) - SumNew(s1.reqs, pre + ranked[..1]), reserved,
                          active)
  {
    hide SumNew;
    assert ranked[..1] == [ranked[0]];
  }

  lemma CommitUnfolds(c: Config, s: Sys, ranked: seq<nat>, budget: nat, reserved: nat, active: nat, committed: seq<nat>)
    ensures var res := CommitSameStep(c, s, ranked, budget, reserved, active, committed);
            if ranked == [] || active + |committed| >= c.maxSeqs then res == Ok((s, committed))
            else
              var d := Decide(c, s, ranked[0], budget, reserved);
              && (d.Ok? && d.value.Stop? ==> res == Ok((s, committed)))
              && (d.Ok? && d.value.Take? ==>
                    var s1 := Admit(c, s, ranked[0], d.value.blocks, d.value.tokens);
                    s1.Ok? ==>
                      res == if d.value.partial then Ok((s1.value, committed + [ranked[0]]))
                             else CommitSameStep(c, s1.value, ranked[1..], budget - d.value.tokens, reserved, active,
                                                 committed + [ranked[0]]))
  {
    hide Decide, Admit;
  }

  lemma StopsTail(c: Config, s: Sys, s1: Sys, s': Sys, pre: seq<nat>, ranked: seq<nat>, n: nat, budget: nat, m: nat,
                  reserved: nat, active: nat)
    requires ranked != [] && n <= budget && m <= |ranked| - 1
    requires SumNew(s1.reqs, pre + [ranked[0]]) == SumNew(s.reqs, pre) + n
    requires CommitStopsAt(c, s', ranked[1..], m, budget - n + SumNew(s1.reqs, pre + [ranked[0]])
                           - SumNew(s'.reqs, pre + [ranked[0]] + ranked[1..][..m]), reserved, active + 1)
    ensures CommitStopsAt(c, s', ranked, m + 1, budget + SumNew(s.reqs, pre) - SumNew(s'.reqs, pre + ranked[..m + 1]),
                          reserved, active)
  {
    hide SumNew, Complete, RefusedNow;
    assert pre + [ranked[0]] + ranked[1..][..m] == pre + ranked[..m + 1];
  }

  lemma CandidatesTail(s0: Sys, pre: seq<nat>, ranked: seq<nat>)
    requires Candidates(s0, pre, ranked) && ranked != []
    ensures Candidates(s0, pre + [ranked[0]], ranked[1..])
  {
  }

  /** The same-step loop stops for no other reason. */
  lemma {:induction false} CommitMaximal(c: Config, s0: Sys, s: Sys, led: Ledger, kv: Memory, pre: seq<nat>,
                                         ranked: seq<nat>, budget: nat, reserved: nat, active: nat, committed: seq<nat>)
    requires Mid(c, s0, s, led, kv, pre) && Candidates(s0, pre, ranked)
    requires forall id: nat :: id < |s0.reqs| ==> ReqLimits(c, s0.reqs[id])
    requires reserved <= |s.pool.free|
    ensures var res := CommitSameStep(c, s, ranked, budget, reserved, active, committed);
            && res.Ok? && |committed| <= |res.value.1| <= |committed| + |ranked|
            && var m := |res.value.1| - |committed|;
               CommitStopsAt(c, res.value.0, ranked, m,
                             budget + SumNew(s.reqs, pre) - SumNew(res.value.0.reqs, pre + ranked[..m]), reserved,
                             active + |committed|)
    decreases |ranked|
  {
    hide Mid, Candidates, Decide, Admit, AdmitReady, RefusedNow, SumNew, Complete, CommitSameStep, RequiredForAdmission,
         Cached;
    assert pre + ranked[..0] == pre;
    CommitUnfolds(c, s, ranked, budget, reserved, active, committed);
    if ranked != [] && active + |committed| < c.maxSeqs {
      var id := ranked[0];
      DecideIs(c, s0, s, led, kv, pre, ranked, budget, reserved);
      var d := Decide(c, s, id, budget, reserved).value;
      if d.Take? {
        var led1 := AdmitOk(c, s0, s, led, kv, pre, id, d.blocks, d.tokens);
        var s1 := Admit(c, s, id, d.blocks, d.tokens).value;
        MidLengths(c, s0, s, led, kv, pre);
        MidLengths(c, s0, s1, led1, kv, pre + [id]);
        if d.partial {
          PartStops(c, s, s1, pre, ranked, budget, reserved, active + |committed|);
        } else {
          CandidatesTail(s0, pre, ranked);
          CommitMaximal(c, s0, s1, led1, kv, pre + [id], ranked[1..], budget - d.tokens, reserved, active,
                        committed + [id]);
          var res := CommitSameStep(c, s1, ranked[1..], budget - d.tokens, reserved, active, committed + [id]).value;
          StopsTail(c, s, s1, res.0, pre, ranked, d.tokens, budget, |res.1| - |committed| - 1, reserved,
                    active + |committed|);
        }
      }
    }
  }

  /** For the step: what the same-step half admits is the first of the ranking, and it stops there. */
  lemma SameStepMaximal(c: Config, s: Sys, led: Ledger, kv: Memory)
    requires AtRest(c, s, led, kv) && DecodeFits(c, s) && PlanStep(c, s).Ok? && c.sameStep
    ensures var p := PlanStep(c, s).value;
            var res := PrefillStep(c, s, p);
            && res.Ok? && |res.value.1| <= |p.ranked| && res.value.1 == p.ranked[..|res.value.1|]
            && CommitStopsAt(c, res.value.0, p.ranked, |res.value.1|,
                             c.maxBatch - |s.running| - SumNew(res.value.0.reqs, ChunkIds(s, p.chunk) + res.value.1),
                             p.reserved, s.Live())
  {
    hide AtRest, Nearly, DecodeFits, PlanStep, Candidates, PlanChunk, AppendChunk, CommitSameStep, CommitStopsAt,
         SumNew,
         Mid, RankedWaiting, SumAppend, Snapshot, PrefillOutcome;
    RestIsSteppable(c, s, led, kv);
    PlanStepOk(c, s, led, kv);
    var p := PlanStep(c, s).value;
    var budget := c.maxBatch - |s.running|;
    StepBudgets(c, s, p);
    PlanChunkOk(c, s, led, kv, budget, |s.pool.free| - p.reserved);
    RankedWaitingOk(c, s, led, kv, p.chunk);
    RestLimits(c, s, led, kv);
    var led1 := AppendChunkOk(c, s, led, kv, p.chunk, budget, |s.pool.free| - p.reserved);
    var s1 := AppendChunk(c, s, p.chunk).value;
    CommitMaximal(c, s, s1, led1, kv, ChunkIds(s, p.chunk), p.ranked, p.chunk.tokenBudget, p.reserved, s.Live(), []);
    var led', m := PrefillOk(c, s, led, kv, p);
    OutcomeFacts(c, s, led, led', kv, p.chunk, p.ranked, m, p.reserved, PrefillStep(c, s, p));
  }

  lemma StepBudgets(c: Config, s: Sys, p: StepPlan)
    requires PlanStep(c, s) == Ok(p)
    ensures |s.running| <= c.maxBatch && p.reserved == SumAppend(c, s.reqs, s.running) <= |s.pool.free|
  {
    hide PlanChunk, RankedWaiting, SumAppend;
  }

  // ---------------------------------------------------------------- what decode and the chunk are given

  /** Running requests whose cached tokens fill their pages. */
  function FullTables(c: Config, s: Sys): set<nat> {
    set x | x in s.running && s.Get(x).cached % c.B == 0
  }

  function FullAmong(c: Config, s: Sys, ids: seq<nat>): set<nat> {
    set x | x in ids && s.Get(x).cached % c.B == 0
  }

  lemma OnePage(c: Config, pages: seq<Page>, r: Req)
    requires Aligned(c, pages, r) && r.newToks == 0
    ensures NumBlocksToAppend(c, r, 1) == if r.cached % c.B == 0 then 1 else 0
  {
    var k := r.cached;
    DivStart(k, c.B);
    if k % c.B == 0 {
      CeilUnique(k + 1, c.B, k / c.B + 1);
      if k > 0 { StartPositive(k / c.B, c.B); }
      CeilUnique(k, c.B, k / c.B);
    } else {
      CeilUnique(k, c.B, k / c.B + 1);
      CeilUnique(k + 1, c.B, k / c.B + 1);
    }
  }

  lemma StartPositive(q: nat, B: pos)
    requires Start(q, B) > 0
    ensures q > 0 && Start(q - 1, B) < Start(q, B)
  {
  }

  lemma {:induction false} PagesAmong(c: Config, s: Sys, ids: seq<nat>)
    requires NoDup(ids) && forall k :: 0 <= k < |ids| ==>
                 ids[k] < |s.reqs| && s.reqs[ids[k]].newToks == 0 && Aligned(c, s.pool.pages, s.reqs[ids[k]])
    ensures SumAppend(c, s.reqs, ids) == |FullAmong(c, s, ids)|
    decreases |ids|
  {
    hide Aligned, NumBlocksToAppend;
    if ids != [] {
      var x, rest := ids[0], FullAmong(c, s, ids[1..]);
      OnePage(c, s.pool.pages, s.reqs[x]);
      PagesAmong(c, s, ids[1..]);
      assert x !in rest;
      assert FullAmong(c, s, ids) == rest + if s.reqs[x].cached % c.B == 0 then {x} else {};
    } else {
      assert FullAmong(c, s, ids) == {};
    }
  }

  /** Decode needs one page for each running request whose cached tokens fill its pages; a step fits if there are as
      many free pages, and tokens for everybody. */
  lemma DecodePages(c: Config, s: Sys, led: Ledger, kv: Memory)
    requires AtRest(c, s, led, kv)
    ensures SumAppend(c, s.reqs, s.running) == |FullTables(c, s)|
    ensures DecodeFits(c, s) <==> |s.running| <= c.maxBatch && |FullTables(c, s)| <= |s.pool.free|
  {
    hide World, KvComplete, Aligned;
    forall k | 0 <= k < |s.running|
      ensures s.running[k] < |s.reqs| && s.reqs[s.running[k]].newToks == 0
      ensures Aligned(c, s.pool.pages, s.reqs[s.running[k]])
    {
      assert Progress(s, s.running[k]);
    }
    PagesAmong(c, s, s.running);
    assert FullAmong(c, s, s.running) == FullTables(c, s);
  }

  /** The tokens that the chunk asks for, and the pages they need. */
  function ChunkTokens(c: Config, s: Sys, x: nat): int {
    Min(|s.Get(x).tokens| - s.Get(x).cached, c.maxBatch - |s.running|)
  }

  predicate ChunkFits(c: Config, s: Sys, x: nat) {
    var n := ChunkTokens(c, s, x);
    n > 0 && Ceil(s.Get(x).cached + n, c.B) + |FullTables(c, s)| <= |s.Get(x).table| + |s.pool.free|
  }

  /** Waiting requests may be admitted beside it: there is no chunk, or it gets all it needs. */
  predicate LetsIn(c: Config, s: Sys) {
    s.chunked.Some? ==>
      var x := s.chunked.value;
      ChunkFits(c, s, x) && ChunkTokens(c, s, x) == |s.Get(x).tokens| - s.Get(x).cached
  }

  /** What the step plans for the chunk and for those who wait. */
  lemma ChunkShare(c: Config, s: Sys, led: Ledger, kv: Memory)
    requires AtRest(c, s, led, kv) && DecodeFits(c, s)
    ensures PlanStep(c, s).Ok?
    ensures var p := PlanStep(c, s).value;
            && (p.chunk.scheduled <==> s.chunked.Some? && ChunkFits(c, s, s.chunked.value))
            && (p.chunk.scheduled ==> p.chunk.tokens == ChunkTokens(c, s, s.chunked.value))
            && p.chunk.tokenBudget == c.maxBatch - |s.running| - (if p.chunk.scheduled then p.chunk.tokens else 0)
            && (p.chunk.allowWaiting <==> LetsIn(c, s))
            && (p.ranked != [] <==> LetsIn(c, s) && s.waiting != [] && p.chunk.tokenBudget > 0)
  {
    hide Nearly, RankedWaiting, SumAppend, FullTables;
    RestIsSteppable(c, s, led, kv);
    PlanStepOk(c, s, led, kv);
    DecodePages(c, s, led, kv);
    ChunkCovered(c, s, led, kv, if s.chunked.Some? then Max(ChunkTokens(c, s, s.chunked.value), 0) else 0);
    RankingIs(c, s, led, kv, PlanStep(c, s).value.chunk);
  }

  lemma ChunkCovered(c: Config, s: Sys, led: Ledger, kv: Memory, n: nat)
    requires AtRest(c, s, led, kv)
    ensures s.chunked.Some? ==>
              var r := s.Get(s.chunked.value);
              |r.tokens| > r.cached && |r.table| == Ceil(r.cached, c.B)
    ensures s.chunked.Some? ==> Ceil(s.Get(s.chunked.value).cached + n, c.B) >= |s.Get(s.chunked.value).table|
  {
    hide World, KvComplete;
    if s.chunked.Some? {
      var x := s.chunked.value;
      assert Placed(s, x) && Progress(s, x) && ReqLimits(c, s.reqs[x]);
      assert Aligned(c, s.pool.pages, s.reqs[x]);
      CeilMono(s.reqs[x].cached, s.reqs[x].cached + n, c.B);
    }
  }

  /** The chunk is in the batch exactly if its share fits, and gets that share; and a waiting request is admitted only
      beside a chunk that gets all it needs. */
  lemma ChunkInBatch(c: Config, s: Sys, led: Ledger, kv: Memory)
    requires AtRest(c, s, led, kv) && DecodeFits(c, s) && ScheduleFrom(c, s).Ok?
    ensures var b := ScheduleFrom(c, s).value;
            && (s.chunked.Some? ==>
                  var x := s.chunked.value;
                  && (x in b.seqs <==> ChunkFits(c, s, x))
                  && (x in b.seqs ==> b.sys.Get(x).newToks == ChunkTokens(c, s, x)))
            && (forall y :: y in s.waiting && y in b.seqs ==> LetsIn(c, s))
  {
    hide AtRest, Nearly, DecodeFits, ScheduleFrom, Scheduled, PlanStep, LetsIn, ChunkFits, ChunkTokens;
    ChunkShare(c, s, led, kv);
    var led', m := ScheduleFromOk(c, s, led, kv);
    var b, p := ScheduleFrom(c, s).value, PlanStep(c, s).value;
    ChunkApartFromRest(c, s, led, kv, p);
    if s.chunked.Some? && p.chunk.scheduled {
      assert b.seqs[0] == s.chunked.value;
    }
    if !LetsIn(c, s) {
      assert p.ranked[..m] == [];
    }
  }

  lemma ChunkApartFromRest(c: Config, s: Sys, led: Ledger, kv: Memory, p: StepPlan)
    requires AtRest(c, s, led, kv) && PlanStep(c, s) == Ok(p)
    ensures s.chunked.Some? ==>
              s.chunked.value !in p.ranked && s.chunked.value !in s.running && s.chunked.value !in s.waiting
    ensures forall y :: y in s.waiting ==> y !in s.running
  {
    hide Quiescent, RankedWaiting, PlanChunk, SumAppend;
    RankingIs(c, s, led, kv, p.chunk);
    if s.chunked.Some? {
      assert Placed(s, s.chunked.value);
    }
    forall y | y in s.waiting
      ensures y !in s.running
    {
      assert Placed(s, y);
    }
  }
}
