/** A prefill that already has completions and is cut inside them: exactly when the engine gets there and what
    follows. */
module CutResume {
  import opened Arith
  import opened Requests
  import opened Pages
  import opened CacheInvariant
  import opened KvMemory
  import opened Growth
  import opened Matching
  import opened Boundary
  import opened Scheduling
  import opened SchedulerState
  import opened Prefill
  import opened Steps
  import opened CutFails
  import opened Frozen
  import opened Ranking
  import opened Liveness
  import opened Postprocessing
  import opened Runs

  // ---------------------------------------------------------------- what follows an unsafe step

  /** The step after a computed batch fails an assertion exactly if the batch cut a prefill inside its completions and
      everybody running, the cut request included, fits; if it does not fit, preemption takes it and repairs the
      state. */
  lemma UnsafeNext(c: Config, s0: Sys, b: Batch, led: Ledger, led0: Ledger, kv0: Memory, kv: Memory, ts: seq<Token>)
    requires Computed(c, s0, b, led, led0, kv0, kv) && |ts| == |NeedLogits(b.sys, b.seqs)| && b.numPrefill <= |b.seqs|
    ensures Postprocess(c, b, NeedLogits(b.sys, b.seqs), ts).Ok?
    ensures var s := Postprocess(c, b, NeedLogits(b.sys, b.seqs), ts).value;
            && (Schedule(c, s) == Err(AssertionFailed) <==> !ChunkSafe(b) && DecodeFits(c, s))
            && (Schedule(c, s).Err? && (ChunkSafe(b) || !DecodeFits(c, s)) ==>
                  Schedule(c, s).error == PromptTooLong || Schedule(c, s).error == NoProgress)
  {
    hide Computed, NeedLogits, Postprocess, Nearly, AtRest, Cut, DecodeFits, ScheduleFrom, PreemptTail, Scheduled;
    PostprocessNearly(c, s0, b, led, led0, kv0, kv, ts);
    var s := Postprocess(c, b, NeedLogits(b.sys, b.seqs), ts).value;
    if Cut(s) && DecodeFits(c, s) {
      CutIsFatal(c, s, led, kv);
    } else {
      PreemptionKeepsRequests(c, s, led, kv);
      var led', m := ScheduleFromOk(c, AfterPreemption(c, s), led, kv);
    }
  }

  // ---------------------------------------------------------------- the first request in the ranking

  /** What a step without a chunk leaves for the waiting requests. */
  function NoChunk(c: Config, s: Sys): ChunkPlan {
    ChunkPlan(false, 0, 0, true, Max(c.maxBatch - |s.running|, 0),
              Max(|s.pool.free| - SumAppend(c, s.reqs, s.running), 0))
  }

  /** The plan of such a step. */
  function FirstPlan(c: Config, s: Sys): StepPlan {
    var ranking := RankedWaiting(c, s, NoChunk(c, s));
    var (prefixes, ranked) := if ranking.Ok? then ranking.value else (map[], []);
    StepPlan(NoChunk(c, s), prefixes, ranked, SumAppend(c, s.reqs, s.running))
  }

  /** There is no chunk, one more request may run, and `id` ranks first, with these pages cached. */
  ghost predicate FirstWaits(c: Config, s: Sys, led: Ledger, kv: Memory, id: nat, ids: seq<nat>) {
    && AtRest(c, s, led, kv) && DecodeFits(c, s)
    && s.chunked.None? && id in s.waiting && id < |s.reqs|
    && |s.running| < c.maxBatch && |s.running| < c.maxSeqs
    && MatchPrefix(c, s.pool, s.reqs[id]) == Ok(ids)
    && RankedWaiting(c, s, NoChunk(c, s)).Ok?
    && var p := FirstPlan(c, s);
    p.ranked != [] && p.ranked[0] == id && id in p.prefixes && p.prefixes[id] == ids
  }

  /** The tokens it asks for: what its cached prefix leaves, as far as the budget goes. */
  function Portion(c: Config, s: Sys, id: nat, ids: seq<nat>): nat {
    Max(Min(|s.Get(id).tokens| - Start(|ids|, c.B), c.maxBatch - |s.running|), 0)
  }

  /** Its pages fit beside those that decode will take. */
  predicate Fits(c: Config, s: Sys, id: nat, ids: seq<nat>) {
    RequiredForAdmission(c, s.pool, ids, Portion(c, s, id, ids)) + SumAppend(c, s.reqs, s.running) <= |s.pool.free|
  }

  /** It is admitted: a part of it only if prefills may be cut. */
  predicate Taken(c: Config, s: Sys, id: nat, ids: seq<nat>) {
    Fits(c, s, id, ids) && (c.chunked || |s.Get(id).tokens| - Start(|ids|, c.B) <= c.maxBatch - |s.running|)
  }

  /** Nobody is admitted behind it: there is nobody else, or it used up the budget. */
  predicate Alone(c: Config, s: Sys, id: nat, ids: seq<nat>) {
    FirstPlan(c, s).ranked == [id] || Portion(c, s, id, ids) < |s.Get(id).tokens| - Start(|ids|, c.B)
  }

  lemma FirstReady(c: Config, s: Sys, led: Ledger, kv: Memory, id: nat, ids: seq<nat>)
    requires FirstWaits(c, s, led, kv, id, ids)
    ensures Nearly(c, s, led, kv) && World(c, s.pool, s.reqs, led) && Idle(s.reqs[id]) && s.reqs[id].newToks == 0
    ensures s.Get(id) == s.reqs[id] && id !in s.running
    ensures PlanOk(c, s.pool, led, s.reqs[id], ids) && |s.reqs[id].tokens| >= 1
    ensures 0 < Portion(c, s, id, ids) && Start(|ids|, c.B) + Portion(c, s, id, ids) <= |s.reqs[id].tokens|
    ensures |s.running| <= c.maxBatch && SumAppend(c, s.reqs, s.running) <= |s.pool.free|
  {
    hide Quiescent, PlanOk, RankedWaiting;
    WaitingIdle(c, s, led, kv, id);
    RestWorld(c, s, led, kv);
    MatchPrefixSound(c, s.pool, s.reqs, led, id);
    PlanLeavesToken(c, s.pool, led, s.reqs[id], ids);
  }

  lemma FirstPlanned(c: Config, s: Sys, led: Ledger, kv: Memory, id: nat, ids: seq<nat>)
    requires FirstWaits(c, s, led, kv, id, ids)
    ensures PlanStep(c, s) == Ok(FirstPlan(c, s))
  {
    hide AtRest, MatchPrefix, SumAppend, RankedWaiting;
    FirstReady(c, s, led, kv, id, ids);
  }

  /** What the prefill half does with it. */
  ghost predicate FirstAdmitted(c: Config, s: Sys, id: nat, ids: seq<nat>) {
    var v := PrefillStep(c, s, FirstPlan(c, s));
    && v.Ok?
    && v.value.1 == (if Taken(c, s, id, ids) then [id] else [])
    && (Taken(c, s, id, ids) ==>
          && Admit(c, s, id, ids, Portion(c, s, id, ids)) == Ok(v.value.0)
          && v.value.0.Get(id).Context() == Start(|ids|, c.B) + Portion(c, s, id, ids))
  }

  /** The first round of the loop. */
  lemma FirstDecides(c: Config, s: Sys, led: Ledger, kv: Memory, id: nat, ids: seq<nat>)
    requires FirstWaits(c, s, led, kv, id, ids)
    ensures var n := Portion(c, s, id, ids);
            Decide(c, s, id, c.maxBatch - |s.running|, SumAppend(c, s.reqs, s.running))
            == Ok(if Taken(c, s, id, ids) then Take(ids, n, n < |s.reqs[id].tokens| - Start(|ids|, c.B)) else Stop)
  {
    hide AtRest, Nearly, World, MatchPrefix, SumAppend, PlanOk, RequiredForAdmission, DecodeFits, RankedWaiting;
    FirstReady(c, s, led, kv, id, ids);
  }

  /** The loop after it, if it ends there. */
  lemma CommitOnce(c: Config, s: Sys, ranked: seq<nat>, budget: nat, reserved: nat, active: nat, ids: seq<nat>, n: nat,
                   partial: bool)
    requires ranked != [] && active < c.maxSeqs && n <= budget
    requires Decide(c, s, ranked[0], budget, reserved) == Ok(Take(ids, n, partial))
             && Admit(c, s, ranked[0], ids, n).Ok?
    requires partial || ranked == [ranked[0]]
    ensures CommitSameStep(c, s, ranked, budget, reserved, active, [])
            == Ok((Admit(c, s, ranked[0], ids, n).value, [ranked[0]]))
  {
    hide Decide, Admit;
    var s1 := Admit(c, s, ranked[0], ids, n).value;
    assert [] + [ranked[0]] == [ranked[0]];
    CommitEnd(c, s1, [], budget - n, reserved, active, [ranked[0]]);
  }

  lemma FirstSameStep(c: Config, s: Sys, led: Ledger, kv: Memory, id: nat, ids: seq<nat>)
    requires FirstWaits(c, s, led, kv, id, ids) && c.sameStep && (Taken(c, s, id, ids) ==> Alone(c, s, id, ids))
    ensures FirstAdmitted(c, s, id, ids)
  {
    hide AtRest, Nearly, World, MatchPrefix, SumAppend, Admit, Mid, PlanOk, RequiredForAdmission, DecodeFits,
         RankedWaiting,
         Decide, CommitSameStep, Portion, Taken;
    FirstReady(c, s, led, kv, id, ids);
    FirstDecides(c, s, led, kv, id, ids);
    var n := Portion(c, s, id, ids);
    var reserved := SumAppend(c, s.reqs, s.running);
    var ranked := FirstPlan(c, s).ranked;
    if Taken(c, s, id, ids) {
      FirstAdmits(c, s, led, kv, id, ids);
      CommitOnce(c, s, ranked, c.maxBatch - |s.running|, reserved, |s.running|, ids, n,
                 n < |s.reqs[id].tokens| - Start(|ids|, c.B));
    } else {
      CommitStops(c, s, ranked, c.maxBatch - |s.running|, reserved, |s.running|);
    }
  }

  lemma CommitStops(c: Config, s: Sys, ranked: seq<nat>, budget: nat, reserved: nat, active: nat)
    requires ranked != [] && Decide(c, s, ranked[0], budget, reserved) == Ok(Stop)
    ensures CommitSameStep(c, s, ranked, budget, reserved, active, []) == Ok((s, []))
  {
    hide Decide;
  }

  lemma FirstAdmits(c: Config, s: Sys, led: Ledger, kv: Memory, id: nat, ids: seq<nat>)
    requires FirstWaits(c, s, led, kv, id, ids) && Taken(c, s, id, ids)
    ensures var n := Portion(c, s, id, ids);
            && Admit(c, s, id, ids, n).Ok?
            && Admit(c, s, id, ids, n).value.Get(id).Context() == Start(|ids|, c.B) + n
            && n <= c.maxBatch - |s.running|
  {
    hide AtRest, Nearly, World, MatchPrefix, SumAppend, Admit, Mid, PlanOk, DecodeFits, RankedWaiting;
    FirstReady(c, s, led, kv, id, ids);
    MidStart(c, s, led, kv);
    var led1 := AdmitOk(c, s, s, led, kv, [], id, ids, Portion(c, s, id, ids));
    AdmittedPlace(c, s, Admit(c, s, id, ids, Portion(c, s, id, ids)).value, led1, kv, id);
  }

  lemma CommitEnd(c: Config, s: Sys, ranked: seq<nat>, budget: nat, reserved: nat, active: nat, committed: seq<nat>)
    requires ranked == []
    ensures CommitSameStep(c, s, ranked, budget, reserved, active, committed) == Ok((s, committed))
  {
  }

  lemma FrozenEnd(c: Config, s: Sys, prefixes: Prefixes, ranked: seq<nat>, tokens: nat, free: nat, protected: set<nat>,
                  active: nat,
                  adm: seq<Admission>)
    requires ranked == []
    ensures PlanFrozen(c, s, prefixes, ranked, tokens, free, protected, active, adm) == Ok(adm)
    ensures ClaimAdmitted(c, s, []) == Ok(s) && AllocateAdmitted(c, s, []) == Ok(s)
  {
  }

  lemma AdmittedPlace(c: Config, s0: Sys, s: Sys, led: Ledger, kv: Memory, id: nat)
    requires Mid(c, s0, s, led, kv, [] + [id])
    ensures id < |s.reqs|
  {
    assert ([] + [id])[0] == id;
  }

  lemma FirstFrozen(c: Config, s: Sys, led: Ledger, kv: Memory, id: nat, ids: seq<nat>)
    requires FirstWaits(c, s, led, kv, id, ids) && !c.sameStep && (Taken(c, s, id, ids) ==> Alone(c, s, id, ids))
    ensures FirstAdmitted(c, s, id, ids)
  {
    hide AtRest, Nearly, World, MatchPrefix, SumAppend, PlanOk, DecodeFits, ClaimAdmitted, AllocateAdmitted, FreeAmong,
         Mid, RankedWaiting;
    FirstReady(c, s, led, kv, id, ids);
    var p := FirstPlan(c, s);
    var n := Portion(c, s, id, ids);
    var a := Admission(id, ids, Start(|ids|, c.B) + n);
    var d := PlanRound(c, s, p.prefixes, id, p.chunk.tokenBudget, p.chunk.freeBudget, {});
    assert FreeAmong(s.pool, ids) - {} == FreeAmong(s.pool, ids);
    assert [] + [a] == [a];
    var adm := PlanFrozen(c, s, p.prefixes, p.ranked, p.chunk.tokenBudget, p.chunk.freeBudget, {}, s.Live(), []);
    if Taken(c, s, id, ids) {
      assert d == Ok(PlanTake(a, FreeAmong(s.pool, ids) - {}, n, RequiredForAdmission(c, s.pool, ids, n),
                              n < |s.reqs[id].tokens| - Start(|ids|, c.B)));
      if p.ranked == [id] {
        FrozenEnd(c, s, p.prefixes, p.ranked[1..], p.chunk.tokenBudget - n, p.chunk.freeBudget - d.value.cost,
                  {} + d.value.newly, s.Live(), [a]);
      }
      assert adm == Ok([a]);
      FirstAllocated(c, s, led, kv, id, ids, a);
      assert Ids([a]) == [id];
    } else {
      assert d == Ok(PlanStop);
      assert adm == Ok([]);
      assert Ids([]) == [];
      FrozenEnd(c, s, p.prefixes, [], 0, 0, {}, 0, []);
    }
  }

  lemma FirstAllocated(c: Config, s: Sys, led: Ledger, kv: Memory, id: nat, ids: seq<nat>, a: Admission)
    requires FirstWaits(c, s, led, kv, id, ids) && Taken(c, s, id, ids)
    requires a == Admission(id, ids, Start(|ids|, c.B) + Portion(c, s, id, ids))
    ensures ClaimAdmitted(c, s, [a]).Ok?
    ensures var s1 := ClaimAdmitted(c, s, [a]).value;
            && s1.chunked.None? && AllocateAdmitted(c, s1, [a]).Ok?
            && AllocateAdmitted(c, s1, [a]).value.Get(id).Context() == a.end
            && Admit(c, s, id, ids, Portion(c, s, id, ids)) == AllocateAdmitted(c, s1, [a])
  {
    hide AtRest, Nearly, World, MatchPrefix, SumAppend, PlanOk, DecodeFits, ClaimAdmitted, AllocateAdmitted, Mid,
         Consistent, RankedWaiting;
    FirstReady(c, s, led, kv, id, ids);
    var plan := NoChunk(c, s);
    assert Ids([a]) == [id];
    assert ProtectedBy(s.pool, [a]) == FreeAmong(s.pool, ids) by { assert [a][1..] == []; }
    assert NewPages(c, [a]) == Ceil(NewTokens(c, a), c.B)
           && SumTokens(c, [a]) == NewTokens(c, a) by { assert [a][1..] == []; }
    FirstCandidate(c, s, led, kv, id, ids);
    FrozenClaimsOk(c, s, led, kv, plan, [id], [a], plan.tokenBudget, plan.freeBudget);
    var s1 := ClaimAdmitted(c, s, [a]).value;
    var led1 := AllocateAdmittedOk(c, s, s1, led, kv, [], [a]);
    assert a.id == [a][0].id;
    assert Todo(c, s, s1, [], [a][0]);
    ClaimThenAllocate(c, s, a, Portion(c, s, id, ids));
  }

  /** For a lone admission the frozen mode does what the same-step mode does. */
  lemma ClaimThenAllocate(c: Config, s: Sys, a: Admission, n: nat)
    requires a.id < |s.reqs| && ClaimAdmitted(c, s, [a]).Ok? && n > 0
    requires var s1 := ClaimAdmitted(c, s, [a]).value;
             s1.Get(a.id).cached + n == a.end && AllocateAdmitted(c, s1, [a]).Ok?
    ensures Admit(c, s, a.id, a.blocks, n) == AllocateAdmitted(c, ClaimAdmitted(c, s, [a]).value, [a])
  {
    hide ClaimPrefix, AllocateNew;
    assert [a][1..] == [];
    var s1 := ClaimStep(c, s, a.id, a.blocks).value;
    FrozenEnd(c, s1, map[], [], 0, 0, {}, 0, []);
    assert ClaimAdmitted(c, s, [a]) == ClaimAdmitted(c, s1, [a][1..]) == Ok(s1);
    var s2 := AllocateStep(c, s1, a.id, n).value;
    FrozenEnd(c, s2, map[], [], 0, 0, {}, 0, []);
    assert AllocateAdmitted(c, s1, [a]) == AllocateAdmitted(c, s2, [a][1..]) == Ok(s2);
    var v := ClaimPrefix(c, s.pool, s.Get(a.id), a.blocks).value;
    assert s1.Get(a.id) == v.1;
    var w := AllocateNew(c, v.0, v.1.(newToks := n)).value;
    assert s.reqs[a.id := v.1][a.id := w.1.(status := Running)] == s.reqs[a.id := w.1.(status := Running)];
  }

  lemma FirstCandidate(c: Config, s: Sys, led: Ledger, kv: Memory, id: nat, ids: seq<nat>)
    requires FirstWaits(c, s, led, kv, id, ids)
    ensures Candidates(s, ChunkIds(s, NoChunk(c, s)), [id])
  {
    hide AtRest, Nearly, World, MatchPrefix, SumAppend, PlanOk, RankedWaiting;
    FirstReady(c, s, led, kv, id, ids);
  }

  lemma {:induction false} DecodeTouches(c: Config, s: Sys, ids: seq<nat>, x: nat)
    requires x !in ids
    ensures DecodeAll(c, s, ids).Ok? ==> DecodeAll(c, s, ids).value.Get(x) == s.Get(x)
    decreases |ids|
  {
    hide MayAppend;
    if ids != [] && ScheduleAppend(c, s, ids[0], 1).Ok? {
      DecodeTouches(c, ScheduleAppend(c, s, ids[0], 1).value, ids[1..], x);
    }
  }

  /** The whole batch of such a step, in both modes: the first request, if it is taken, then everybody running. */
  lemma FirstBatch(c: Config, s: Sys, led: Ledger, kv: Memory, id: nat, ids: seq<nat>) returns (led': Ledger)
    requires FirstWaits(c, s, led, kv, id, ids) && (Taken(c, s, id, ids) ==> Alone(c, s, id, ids))
    ensures PreemptTail(c, s) == Ok(s) && id !in s.running
    ensures Schedule(c, s).Ok? <==> Taken(c, s, id, ids) || s.running != []
    ensures Schedule(c, s).Ok? ==>
              var b := Schedule(c, s).value;
              && Scheduled(c, s, b, led', kv)
              && b.seqs == (if Taken(c, s, id, ids) then [id] else []) + s.running
              && b.numPrefill == (if Taken(c, s, id, ids) then 1 else 0)
              && (Taken(c, s, id, ids) ==>
                    && b.sys.Get(id).Context() == Start(|ids|, c.B) + Portion(c, s, id, ids)
                    && Admit(c, s, id, ids, Portion(c, s, id, ids)).Ok?
                    && DecodeAll(c, Admit(c, s, id, ids, Portion(c, s, id, ids)).value, s.running) == Ok(b.sys))
  {
    hide AtRest, Nearly, Scheduled, MatchPrefix, PlanStep, PrefillStep, DecodeAll, DecodeFits, Taken, Portion, NoBypass,
         EmptyPrefill, World, PlanOk, Admit, Alone, RankedWaiting;
    FirstPlanned(c, s, led, kv, id, ids);
    if c.sameStep { FirstSameStep(c, s, led, kv, id, ids); } else { FirstFrozen(c, s, led, kv, id, ids); }
    var m;
    led', m := ScheduleFromOk(c, s, led, kv);
    FirstReady(c, s, led, kv, id, ids);
    var p := FirstPlan(c, s);
    var v := PrefillStep(c, s, p).value;
    DecodeTouches(c, v.0, s.running, id);
    assert ChunkIds(s, p.chunk) + v.1 == v.1;
    EmptyMeans(c, s);
    if Taken(c, s, id, ids) || s.running != [] { assert v.1 + s.running != []; }
  }

  lemma EmptyMeans(c: Config, s: Sys)
    ensures EmptyPrefill(c, s) ==> PlanStep(c, s).Ok? && PrefillStep(c, s, PlanStep(c, s).value).Ok?
                                   && PrefillStep(c, s, PlanStep(c, s).value).value.1 == [] && s.running == []
  {
    hide PlanStep, PrefillStep;
  }

  // ---------------------------------------------------------------- one request in the waiting queue

  /** Nobody but `id` waits, there is no chunk, and one more request may run. */
  ghost predicate OneWaits(c: Config, s: Sys, led: Ledger, kv: Memory, id: nat, ids: seq<nat>) {
    && AtRest(c, s, led, kv) && DecodeFits(c, s) && c.chunked
    && s.chunked.None? && s.waiting == [id] && id < |s.reqs|
    && |s.running| < c.maxBatch && |s.running| < c.maxSeqs
    && MatchPrefix(c, s.pool, s.reqs[id]) == Ok(ids)
  }

  lemma OneIsFirst(c: Config, s: Sys, led: Ledger, kv: Memory, id: nat, ids: seq<nat>)
    requires OneWaits(c, s, led, kv, id, ids)
    ensures FirstWaits(c, s, led, kv, id, ids) && Alone(c, s, id, ids)
    ensures Taken(c, s, id, ids) <==> Fits(c, s, id, ids)
  {
    hide AtRest, MatchPrefix, SumAppend, DecodeFits, Fits;
    assert [id][1..] == [];
    assert MatchWaiting(c, s, [id][1..]) == Ok(map[]);
    var prefixes := map[id := ids];
    assert map[][id := ids] == prefixes;
    assert MatchWaiting(c, s, [id]) == Ok(prefixes);
    assert SortBy(HitsOf(prefixes), [id][1..]) == [];
    assert SortBy(HitsOf(prefixes), [id]) == [id];
  }

  /** The whole batch of such a step, in both modes: the waiting request first, if it fits, then everybody running. */
  lemma OneBatch(c: Config, s: Sys, led: Ledger, kv: Memory, id: nat, ids: seq<nat>) returns (led': Ledger)
    requires OneWaits(c, s, led, kv, id, ids) && (Fits(c, s, id, ids) || s.running != [])
    ensures Schedule(c, s).Ok?
    ensures var b := Schedule(c, s).value;
            && Scheduled(c, s, b, led', kv)
            && b.seqs == (if Fits(c, s, id, ids) then [id] else []) + s.running
            && b.numPrefill == (if Fits(c, s, id, ids) then 1 else 0)
            && (Fits(c, s, id, ids) ==>
                  && b.sys.Get(id).Context() == Start(|ids|, c.B) + Portion(c, s, id, ids)
                  && Admit(c, s, id, ids, Portion(c, s, id, ids)).Ok?
                  && DecodeAll(c, Admit(c, s, id, ids, Portion(c, s, id, ids)).value, s.running) == Ok(b.sys))
  {
    hide OneWaits, FirstWaits, Taken, Fits, Alone, Schedule, Scheduled, Admit, DecodeAll, Portion;
    OneIsFirst(c, s, led, kv, id, ids);
    led' := FirstBatch(c, s, led, kv, id, ids);
  }

  lemma OneNotRunning(c: Config, s: Sys, led: Ledger, kv: Memory, id: nat, ids: seq<nat>)
    requires OneWaits(c, s, led, kv, id, ids)
    ensures id !in s.running && PreemptTail(c, s) == Ok(s)
  {
    hide Quiescent, MatchPrefix, DecodeFits;
    assert Placed(s, id);
  }

  // ---------------------------------------------------------------- exactly which resumptions are cut

  /** Where the resumption of a lone waiting request stops: behind its cached prefix, as far as the budget goes. */
  function ResumeEnd(c: Config, s: Sys, id: nat): nat {
    var ids := MatchPrefix(c, s.pool, s.Get(id));
    if ids.Ok? then Start(|ids.value|, c.B) + Portion(c, s, id, ids.value) else 0
  }

  /** For a request that waits alone, in both admission modes: the step is unsafe exactly if its cached prefix and the
      token budget together end inside its completions, before the last token but one. */
  lemma LoneSafe(c: Config, s: Sys, led: Ledger, kv: Memory, id: nat)
    requires AtRest(c, s, led, kv) && Ample(c) && c.chunked
    requires s.waiting == [id] && s.running == [] && s.chunked.None?
    ensures Schedule(c, s).Ok? && Schedule(c, s).value.seqs == [id] && Schedule(c, s).value.numPrefill == 1
    ensures SafeStep(c, s) <==>
              ResumeEnd(c, s, id) < s.Get(id).numPrompt || ResumeEnd(c, s, id) + 1 >= |s.Get(id).tokens|
  {
    hide AtRest, Nearly, Scheduled, Schedule, MatchPrefix, Mid, PlanOk, Portion, Fits, Quiescent;
    LoneOne(c, s, led, kv, id);
    var ids := MatchPrefix(c, s.pool, s.Get(id)).value;
    var led' := OneBatch(c, s, led, kv, id, ids);
    assert [id] + s.running == [id];
    var b := Schedule(c, s).value;
    LoneSame(c, s, b, led', kv, id);
    assert b.seqs[0] == id;
  }

  lemma LoneOne(c: Config, s: Sys, led: Ledger, kv: Memory, id: nat)
    requires AtRest(c, s, led, kv) && Ample(c) && c.chunked
    requires s.waiting == [id] && s.running == [] && s.chunked.None?
    ensures MatchPrefix(c, s.pool, s.Get(id)).Ok?
    ensures var ids := MatchPrefix(c, s.pool, s.Get(id)).value;
            OneWaits(c, s, led, kv, id, ids) && Fits(c, s, id, ids)
  {
    hide Nearly, MatchPrefix, PlanOk, Quiescent;
    RestIsSteppable(c, s, led, kv);
    WaitingIdle(c, s, led, kv, id);
    RestWorld(c, s, led, kv);
    MatchPrefixSound(c, s.pool, s.reqs, led, id);
    FirstFits(c, s, led, kv, id, MatchPrefix(c, s.pool, s.Get(id)).value);
  }

  lemma LoneSame(c: Config, s: Sys, b: Batch, led: Ledger, kv: Memory, id: nat)
    requires Scheduled(c, s, b, led, kv) && id in b.seqs
    ensures b.sys.Get(id).tokens == s.Get(id).tokens && b.sys.Get(id).numPrompt == s.Get(id).numPrompt
  {
    hide Quiescent;
    DeliveriesReady(c, s, b, led, kv);
    var k :| 0 <= k < |b.seqs| && b.seqs[k] == id;
    BatchMember(c, s, b, led, kv, id);
  }
}
