/** A running request with two tokens to compute: whatever else happens, `schedule` fails on it. */
module CutFails {
  import opened Arith
  import opened Seqs
  import opened Requests
  import opened Pages
  import opened CacheInvariant
  import opened KvMemory
  import opened Boundary
  import opened Scheduling
  import opened SchedulerState
  import opened Prefill
  import opened Steps
  import opened Ranking

  // ---------------------------------------------------------------- who a step can touch

  lemma {:induction false} CommitTouches(c: Config, s: Sys, ranked: seq<nat>, budget: nat, reserved: nat, active: nat,
                                         committed: seq<nat>, x: nat)
    requires x !in ranked
    ensures var res := CommitSameStep(c, s, ranked, budget, reserved, active, committed);
            res.Ok? ==> res.value.0.Get(x) == s.Get(x) && res.value.0.running == s.running
    decreases |ranked|
  {
    hide Decide, ClaimPrefix, AllocateNew;
    if ranked != [] {
      var d := Decide(c, s, ranked[0], budget, reserved);
      if d.Ok? && d.value.Take? {
        var s' := Admit(c, s, ranked[0], d.value.blocks, d.value.tokens);
        if s'.Ok? {
          CommitTouches(c, s'.value, ranked[1..], budget - d.value.tokens, reserved, active, committed + [ranked[0]],
                        x);
        }
      }
    }
  }

  ghost predicate Absent(adm: seq<Admission>, x: nat) {
    x !in Ids(adm)
  }

  lemma IdsSnoc(adm: seq<Admission>, a: Admission, x: nat)
    requires Absent(adm, x) && a.id != x
    ensures Absent(adm + [a], x)
  {
    assert Ids(adm + [a]) == Ids(adm) + [a.id];
  }

  lemma {:induction false} PlanTouches(c: Config, s: Sys, prefixes: Prefixes, ranked: seq<nat>, tokenBudget: nat,
                                       freeBudget: nat,
                                       protected: set<nat>, active: nat, adm: seq<Admission>, x: nat)
    requires x !in ranked && Absent(adm, x)
    ensures var res := PlanFrozen(c, s, prefixes, ranked, tokenBudget, freeBudget, protected, active, adm);
            res.Ok? ==> Absent(res.value, x)
    decreases |ranked|
  {
    hide Absent, PlanRound;
    if ranked != [] {
      var d := PlanRound(c, s, prefixes, ranked[0], tokenBudget, freeBudget, protected);
      if d.Ok? && d.value.PlanTake? {
        IdsSnoc(adm, d.value.admission, x);
        PlanTouches(c, s, prefixes, ranked[1..], tokenBudget - d.value.tokens, freeBudget - d.value.cost,
                    protected + d.value.newly, active,
                    adm + [d.value.admission], x);
      }
    }
  }

  lemma IdsTail(adm: seq<Admission>, x: nat)
    requires adm != [] && x !in Ids(adm)
    ensures adm[0].id != x && x !in Ids(adm[1..])
  {
    assert Ids(adm)[0] == adm[0].id;
    forall k | 0 <= k < |adm| - 1
      ensures Ids(adm[1..])[k] != x
    {
      assert Ids(adm[1..])[k] == Ids(adm)[k + 1];
    }
  }

  lemma {:induction false} ClaimTouches(c: Config, s: Sys, adm: seq<Admission>, x: nat)
    requires x !in Ids(adm)
    ensures var res := ClaimAdmitted(c, s, adm);
            res.Ok? ==> res.value.Get(x) == s.Get(x) && res.value.chunked == s.chunked
    decreases |adm|
  {
    hide ClaimPrefix;
    if adm != [] {
      IdsTail(adm, x);
      var v := ClaimPrefix(c, s.pool, s.Get(adm[0].id), adm[0].blocks);
      if v.Ok? {
        ClaimTouches(c, s.Put(adm[0].id, v.value.0, v.value.1), adm[1..], x);
      }
    }
  }

  lemma {:induction false} AllocateTouches(c: Config, s: Sys, adm: seq<Admission>, x: nat)
    requires x !in Ids(adm)
    ensures var res := AllocateAdmitted(c, s, adm);
            res.Ok? ==> res.value.Get(x) == s.Get(x)
    decreases |adm|
  {
    hide AllocateNew;
    if adm != [] {
      IdsTail(adm, x);
      var a := adm[0];
      var r := s.Get(a.id);
      if r.cached < a.end {
        var v := AllocateNew(c, s.pool, r.(newToks := a.end - r.cached));
        if v.Ok? {
          var s' := s.Put(a.id, v.value.0, v.value.1.(status := Running)).(waiting := Remove(s.waiting, a.id));
          AllocateTouches(c, s', adm[1..], x);
        }
      }
    }
  }

  /** The prefill half leaves everybody alone but the chunk and the requests it ranks. */
  lemma PrefillTouches(c: Config, s: Sys, p: StepPlan, x: nat)
    requires x !in p.ranked && s.chunked != Some(x)
    ensures PrefillStep(c, s, p).Ok? ==> PrefillStep(c, s, p).value.0.Get(x) == s.Get(x)
  {
    hide CommitSameStep, PlanFrozen, ClaimAdmitted, AllocateAdmitted, MayAppend;
    if c.sameStep {
      var s1 := AppendChunk(c, s, p.chunk);
      if s1.Ok? {
        CommitTouches(c, s1.value, p.ranked, p.chunk.tokenBudget, p.reserved, s.Live(), [], x);
      }
    } else {
      PlanTouches(c, s, p.prefixes, p.ranked, p.chunk.tokenBudget, p.chunk.freeBudget, {}, s.Live(), [], x);
      var adm := PlanFrozen(c, s, p.prefixes, p.ranked, p.chunk.tokenBudget, p.chunk.freeBudget, {}, s.Live(), []);
      if adm.Ok? {
        ClaimTouches(c, s, adm.value, x);
        var s1 := ClaimAdmitted(c, s, adm.value);
        if s1.Ok? && AppendChunk(c, s1.value, p.chunk).Ok? {
          AllocateTouches(c, AppendChunk(c, s1.value, p.chunk).value, adm.value, x);
        }
      }
    }
  }

  /** Decode stops at the first request that has more than one token to compute. */
  lemma {:induction false} DecodeNeedsOne(c: Config, s: Sys, ids: seq<nat>, x: nat)
    requires NoDup(ids) && x in ids && |s.Get(x).tokens| != s.Get(x).cached + 1
    ensures DecodeAll(c, s, ids).Err?
    decreases |ids|
  {
    hide MayAppend;
    if ids[0] != x && ScheduleAppend(c, s, ids[0], 1).Ok? {
      assert x in ids[1..];
      DecodeNeedsOne(c, ScheduleAppend(c, s, ids[0], 1).value, ids[1..], x);
    }
  }

  lemma RankMembers(c: Config, s: Sys, plan: ChunkPlan, x: nat)
    requires NoDup(s.waiting) && x !in s.waiting && RankedWaiting(c, s, plan).Ok?
    ensures x !in RankedWaiting(c, s, plan).value.1
  {
    if plan.allowWaiting && s.waiting != [] && plan.tokenBudget > 0 {
      RankPermutes(c, MatchWaiting(c, s, s.waiting).value, s.waiting);
    }
  }

  // ---------------------------------------------------------------- which errors there are

  /** An error of the pool or the scheduler itself, not one of the two about missing budget. */
  predicate Internal<T>(r: Result<T>) {
    r.Err? ==> r.error == AssertionFailed || r.error == StalePlan
  }

  lemma GrowStepAsserts(c: Config, pool: Pool, r: Req, end: nat)
    requires r.Context() < end || (r.Context() == end && Start(end / c.B, c.B) < end)
    ensures GrowStep(c, pool, r, end).Err? ==> GrowStep(c, pool, r, end).error == AssertionFailed
    ensures r.Context() < end && GrowStep(c, pool, r, end).Ok?
            ==> GrowStep(c, pool, r, end).value.1.Context() > r.Context()
  {
    hide Publish, BlockHash, Start;
    DivStart(r.Context(), c.B);
  }

  lemma {:induction false} GrowAsserts(c: Config, pool: Pool, r: Req, end: nat)
    ensures Grow(c, pool, r, end).Err? ==> Grow(c, pool, r, end).error == AssertionFailed
    decreases end - r.Context()
  {
    hide GrowStep;
    if r.Context() < end {
      GrowStepAsserts(c, pool, r, end);
      var step := GrowStep(c, pool, r, end);
      if step.Ok? {
        GrowAsserts(c, step.value.0, step.value.1, end);
      }
    }
  }

  /** Appending fails by assertion only: it claims nothing. */
  lemma AppendAsserts(c: Config, pool: Pool, r: Req)
    ensures MayAppend(c, pool, r).Err? ==> MayAppend(c, pool, r).error == AssertionFailed
  {
    hide Grow, GrowStep;
    if r.newToks == 0 && Start(r.cached / c.B, c.B) < r.cached {
      GrowStepAsserts(c, pool, r, r.cached);
    }
    GrowAsserts(c, pool, r.(newToks := 0), r.Context());
  }

  lemma {:induction false} MatchErrors(c: Config, pool: Pool, r: Req, i: nat, stop: nat, matched: seq<nat>)
    ensures Internal(MatchFrom(c, pool, r, i, stop, matched))
    decreases stop - i
  {
    hide Extends, BlockHash;
    if i < stop && Start(i + 1, c.B) <= |r.tokens| {
      var h := BlockHash(c, r.tokens, i);
      if h in pool.owner {
        MatchErrors(c, pool, r, i + 1, stop, matched + [pool.owner[h]]);
      }
    }
  }

  lemma {:induction false} PlanErrors(c: Config, pool: Pool, r: Req, ids: seq<nat>, k: nat)
    requires k <= |ids|
    ensures Internal(PlanError(c, pool, r, ids, k))
    decreases |ids| - k
  {
    hide Extends, BlockHash;
    if k < |ids| {
      PlanErrors(c, pool, r, ids, k + 1);
    }
  }

  lemma PageErrors(c: Config, pool: Pool, r: Req, ids: seq<nat>)
    ensures Internal(MatchPrefix(c, pool, r)) && Internal(ClaimPrefix(c, pool, r, ids))
    ensures Internal(AllocateNew(c, pool, r)) && Internal(MayAppend(c, pool, r))
  {
    hide Grow, MayAppend, MatchFrom, PlanError, ClaimedPrefixValid, ClaimPages;
    MatchErrors(c, pool, r, |r.table|, Max(|r.table|, r.NumBlocks(c.B) - 1), []);
    PlanErrors(c, pool, r, ids, 0);
    GrowAsserts(c, pool, r.(newToks := 0), r.Context());
    AppendAsserts(c, pool, r);
  }

  lemma {:induction false} LookupErrors(c: Config, s: Sys, ids: seq<nat>)
    ensures Internal(MatchWaiting(c, s, ids))
  {
    hide MatchPrefix;
    if ids != [] {
      PageErrors(c, s.pool, s.Get(ids[0]), []);
      LookupErrors(c, s, ids[1..]);
    }
  }

  lemma {:induction false} CommitErrors(c: Config, s: Sys, ranked: seq<nat>, budget: nat, reserved: nat, active: nat,
                                        committed: seq<nat>)
    ensures Internal(CommitSameStep(c, s, ranked, budget, reserved, active, committed))
    decreases |ranked|
  {
    hide MatchPrefix, RequiredForAdmission, ClaimPrefix, AllocateNew;
    if ranked != [] {
      var r := s.Get(ranked[0]);
      PageErrors(c, s.pool, r, []);
      var d := Decide(c, s, ranked[0], budget, reserved);
      if d.Ok? && d.value.Take? {
        AdmitErrors(c, s, ranked[0], d.value.blocks, d.value.tokens);
        var s' := Admit(c, s, ranked[0], d.value.blocks, d.value.tokens);
        if s'.Ok? {
          CommitErrors(c, s'.value, ranked[1..], budget - d.value.tokens, reserved, active, committed + [ranked[0]]);
        }
      }
    }
  }

  lemma AdmitErrors(c: Config, s: Sys, id: nat, blocks: seq<nat>, n: nat)
    ensures Internal(Admit(c, s, id, blocks, n))
  {
    hide ClaimPrefix, AllocateNew;
    PageErrors(c, s.pool, s.Get(id), blocks);
    var v := ClaimPrefix(c, s.pool, s.Get(id), blocks);
    if v.Ok? {
      PageErrors(c, v.value.0, v.value.1.(newToks := n), []);
    }
  }

  lemma RoundErrors(c: Config, s: Sys, prefixes: Prefixes, id: nat, tokens: nat, free: nat, protected: set<nat>)
    ensures Internal(PlanRound(c, s, prefixes, id, tokens, free, protected))
  {
    hide FreeAmong;
  }

  lemma {:induction false} PlanningErrors(c: Config, s: Sys, prefixes: Prefixes, ranked: seq<nat>, tokenBudget: nat,
                                          freeBudget: nat,
                                          protected: set<nat>, active: nat, adm: seq<Admission>)
    ensures Internal(PlanFrozen(c, s, prefixes, ranked, tokenBudget, freeBudget, protected, active, adm))
    decreases |ranked|
  {
    hide PlanRound;
    if ranked != [] {
      RoundErrors(c, s, prefixes, ranked[0], tokenBudget, freeBudget, protected);
      var d := PlanRound(c, s, prefixes, ranked[0], tokenBudget, freeBudget, protected);
      if d.Ok? && d.value.PlanTake? {
        PlanningErrors(c, s, prefixes, ranked[1..], tokenBudget - d.value.tokens, freeBudget - d.value.cost,
                       protected + d.value.newly, active,
                       adm + [d.value.admission]);
      }
    }
  }

  lemma StepErrors(c: Config, s: Sys, id: nat, blocks: seq<nat>, n: nat)
    ensures Internal(ClaimStep(c, s, id, blocks)) && Internal(AllocateStep(c, s, id, n))
  {
    hide ClaimPrefix, AllocateNew;
    PageErrors(c, s.pool, s.Get(id), blocks);
    PageErrors(c, s.pool, s.Get(id).(newToks := n), []);
  }

  lemma {:induction false} AdmittedErrors(c: Config, s: Sys, adm: seq<Admission>)
    ensures Internal(ClaimAdmitted(c, s, adm)) && Internal(AllocateAdmitted(c, s, adm))
    decreases |adm|
  {
    hide ClaimStep, AllocateStep;
    if adm != [] {
      var a := adm[0];
      var n := Max(a.end - s.Get(a.id).cached, 0);
      StepErrors(c, s, a.id, a.blocks, n);
      var s1 := ClaimStep(c, s, a.id, a.blocks);
      if s1.Ok? {
        AdmittedErrors(c, s1.value, adm[1..]);
      }
      var s2 := AllocateStep(c, s, a.id, n);
      if s2.Ok? {
        AdmittedErrors(c, s2.value, adm[1..]);
      }
    }
  }

  lemma AppendErrors(c: Config, s: Sys, id: nat, n: nat)
    ensures Internal(ScheduleAppend(c, s, id, n))
  {
    hide MayAppend;
    PageErrors(c, s.pool, s.Get(id).(newToks := n), []);
  }

  lemma {:induction false} DecodeErrors(c: Config, s: Sys, ids: seq<nat>)
    ensures Internal(DecodeAll(c, s, ids))
    decreases |ids|
  {
    hide ScheduleAppend;
    if ids != [] {
      AppendErrors(c, s, ids[0], 1);
      if ScheduleAppend(c, s, ids[0], 1).Ok? {
        DecodeErrors(c, ScheduleAppend(c, s, ids[0], 1).value, ids[1..]);
      }
    }
  }

  lemma PrefillErrors(c: Config, s: Sys, p: StepPlan)
    ensures Internal(PrefillStep(c, s, p))
  {
    hide CommitSameStep, PlanFrozen, ClaimAdmitted, AllocateAdmitted, ScheduleAppend;
    if s.chunked.Some? {
      AppendErrors(c, s, s.chunked.value, p.chunk.tokens);
    }
    if c.sameStep {
      var s1 := AppendChunk(c, s, p.chunk);
      if s1.Ok? {
        CommitErrors(c, s1.value, p.ranked, p.chunk.tokenBudget, p.reserved, s.Live(), []);
      }
    } else {
      PlanningErrors(c, s, p.prefixes, p.ranked, p.chunk.tokenBudget, p.chunk.freeBudget, {}, s.Live(), []);
      var adm := PlanFrozen(c, s, p.prefixes, p.ranked, p.chunk.tokenBudget, p.chunk.freeBudget, {}, s.Live(), []);
      if adm.Ok? {
        AdmittedErrors(c, s, adm.value);
        var s1 := ClaimAdmitted(c, s, adm.value);
        if s1.Ok? {
          if s1.value.chunked.Some? {
            AppendErrors(c, s1.value, s1.value.chunked.value, p.chunk.tokens);
          }
          var s2 := AppendChunk(c, s1.value, p.chunk);
          if s2.Ok? {
            AdmittedErrors(c, s2.value, adm.value);
          }
        }
      }
    }
  }

  // ---------------------------------------------------------------- the failure

  /** Whatever else the state may be: a running request with other than one token to compute makes `schedule` fail
      inside, as long as the prefill half has no business with that request. */
  lemma TwoTokensFail(c: Config, s: Sys, x: nat)
    requires NoDup(s.waiting) && NoDup(s.running) && x in s.running && x !in s.waiting && s.chunked != Some(x)
    requires |s.Get(x).tokens| != s.Get(x).cached + 1
    ensures ScheduleFrom(c, s).Err? && Internal(ScheduleFrom(c, s))
  {
    hide PlanChunk, RankedWaiting, PrefillStep, DecodeAll, SumAppend;
    PlanningFails(c, s);
    if PlanStep(c, s).Ok? {
      var p := PlanStep(c, s).value;
      RankMembers(c, s, p.chunk, x);
      PrefillErrors(c, s, p);
      PrefillTouches(c, s, p, x);
      if PrefillStep(c, s, p).Ok? {
        DecodeErrors(c, PrefillStep(c, s, p).value.0, s.running);
        DecodeNeedsOne(c, PrefillStep(c, s, p).value.0, s.running, x);
      }
    }
  }

  lemma PlanningFails(c: Config, s: Sys)
    ensures Internal(PlanStep(c, s))
  {
    hide MatchWaiting, SumAppend;
    LookupErrors(c, s, s.waiting);
  }

  /** Decode fails by assertion only: it claims nothing. */
  lemma {:induction false} DecodeAsserts(c: Config, s: Sys, ids: seq<nat>)
    ensures DecodeAll(c, s, ids).Err? ==> DecodeAll(c, s, ids).error == AssertionFailed
    decreases |ids|
  {
    hide MayAppend;
    if ids != [] {
      AppendAsserts(c, s.pool, s.Get(ids[0]).(newToks := 1));
      if ScheduleAppend(c, s, ids[0], 1).Ok? {
        DecodeAsserts(c, ScheduleAppend(c, s, ids[0], 1).value, ids[1..]);
      }
    }
  }

  /** With a cut request that fits, the next `schedule` does everything else without an error, and then fails its
      assertion that a running request has one token to compute. */
  lemma CutIsFatal(c: Config, s: Sys, led: Ledger, kv: Memory)
    requires Nearly(c, s, led, kv) && Cut(s) && DecodeFits(c, s)
    ensures Schedule(c, s) == Err(AssertionFailed)
  {
    hide Quiescent, PlanChunk, RankedWaiting, PrefillStep, PrefillOutcome, DecodeAll, SumAppend, Candidates;
    var x := s.running[|s.running| - 1];
    assert Placed(s, x);
    PlanStepOk(c, s, led, kv);
    var p := PlanStep(c, s).value;
    var led1, m := PrefillOk(c, s, led, kv, p);
    OutcomeFacts(c, s, led, led1, kv, p.chunk, p.ranked, m, p.reserved, PrefillStep(c, s, p));
    RankMembers(c, s, p.chunk, x);
    PrefillTouches(c, s, p, x);
    DecodeNeedsOne(c, PrefillStep(c, s, p).value.0, s.running, x);
    DecodeAsserts(c, PrefillStep(c, s, p).value.0, s.running);
  }
}
