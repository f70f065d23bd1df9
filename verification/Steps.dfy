/** The whole scheduling step: no assertion fails, budgets hold, and the batch is what it claims to be. */
module Steps {
  import opened Seqs
  import opened Requests
  import opened Pages
  import opened CacheInvariant
  import opened KvMemory
  import opened Growth
  import opened Matching
  import opened Boundary
  import opened Scheduling
  import opened SchedulerState
  import opened Prefill
  import opened Frozen
  import opened Ranking

  /** Both admission modes end in the same kind of state. */
  ghost predicate PrefillOutcome(c: Config, s0: Sys, led: Ledger, led': Ledger, kv: Memory, plan: ChunkPlan,
                                 ranked: seq<nat>,
                                 m: nat, reserved: nat, res: Result<(Sys, seq<nat>)>) {
    && res.Ok? && m <= |ranked|
    && res.value.1 == ranked[..m]
    && Mid(c, s0, res.value.0, led', kv, ChunkIds(s0, plan) + ranked[..m])
    && reserved <= |res.value.0.pool.free|
    && SumNew(res.value.0.reqs, ChunkIds(s0, plan) + ranked[..m]) <= plan.tokens + plan.tokenBudget
    && (m > 0 ==> s0.Live() + m <= c.maxSeqs)
    && res.value.0.waiting == RemoveAll(s0.waiting, ranked[..m])
    && (forall k :: 0 <= k < m && (k < m - 1 || !c.chunked) ==> Complete(res.value.0, ranked[k]))
    && (plan.scheduled && s0.chunked.Some? ==>
          s0.chunked.value < |res.value.0.reqs| && res.value.0.reqs[s0.chunked.value].newToks == plan.tokens)
    && LedgerExtends(led, led')
  }

  lemma RestLimits(c: Config, s: Sys, led: Ledger, kv: Memory)
    requires Nearly(c, s, led, kv)
    ensures forall id: nat :: id < |s.reqs| ==> ReqLimits(c, s.reqs[id])
  {
  }

  lemma PrefillSameStepOk(c: Config, s: Sys, led: Ledger, kv: Memory, plan: ChunkPlan, ranked: seq<nat>, reserved: nat,
                          tokenBudget: nat)
    returns (led': Ledger, m: nat)
    requires Nearly(c, s, led, kv) && reserved <= |s.pool.free|
    requires PlanChunk(c, s, tokenBudget, |s.pool.free| - reserved) == Ok(plan)
    requires Candidates(s, ChunkIds(s, plan), ranked)
    ensures PrefillOutcome(c, s, led, led', kv, plan, ranked, m, reserved,
                           PrefillSameStep(c, s, plan, ranked, reserved))
  {
    hide Nearly, Mid, CommitSameStep, AppendChunk, SumNew, RemoveAll;
    RestLimits(c, s, led, kv);
    var led1 := AppendChunkOk(c, s, led, kv, plan, tokenBudget, |s.pool.free| - reserved);
    var s1 := AppendChunk(c, s, plan).value;
    var pre := ChunkIds(s, plan);
    led', m := CommitOk(c, s, s1, led1, kv, pre, ranked, plan.tokenBudget, reserved, s.Live(), []);
    LedgerTrans(led, led1, led');
    var v := CommitSameStep(c, s1, ranked, plan.tokenBudget, reserved, s.Live(), []).value;
    assert [] + ranked[..m] == ranked[..m];
    if plan.scheduled && s.chunked.Some? {
      assert s.chunked.value in pre;
      assert s.chunked.value !in ranked[..m] by {
        forall k | 0 <= k < m ensures ranked[k] != s.chunked.value { assert ranked[k] !in pre; }
      }
    }
  }

  // ---------------------------------------------------------------- ranking the waiting queue

  lemma WaitingIdle(c: Config, s: Sys, led: Ledger, kv: Memory, id: nat)
    requires Nearly(c, s, led, kv) && id in s.waiting
    ensures id < |s.reqs| && Idle(s.reqs[id]) && s.reqs[id].newToks == 0 && |s.reqs[id].tokens| >= 1
    ensures s.chunked != Some(id) && id !in s.running
    ensures Settled(c, s.reqs[id])
  {
    var k :| 0 <= k < |s.waiting| && s.waiting[k] == id;
    assert Placed(s, id) && Progress(s, id) && ReqLimits(c, s.reqs[id]);
  }

  /** The ranked list is the waiting queue in rank order, or empty when nothing may be admitted. */
  lemma RankedWaitingOk(c: Config, s: Sys, led: Ledger, kv: Memory, plan: ChunkPlan)
    requires Nearly(c, s, led, kv)
    ensures RankedWaiting(c, s, plan).Ok?
    ensures var (prefixes, ranked) := RankedWaiting(c, s, plan).value;
            && Snapshot(c, s, led, prefixes, ranked)
            && Candidates(s, ChunkIds(s, plan), ranked)
            && (forall k :: 0 <= k < |ranked| ==> Idle(s.reqs[ranked[k]]) && |s.reqs[ranked[k]].tokens| >= 1)
            && (plan.allowWaiting && s.waiting != [] && plan.tokenBudget > 0 ==> ranked != [])
  {
    hide Quiescent, PlanOk;
    if plan.allowWaiting && s.waiting != [] && plan.tokenBudget > 0 {
      forall k | 0 <= k < |s.waiting|
        ensures s.waiting[k] < |s.reqs| && Settled(c, s.reqs[s.waiting[k]])
      {
        WaitingIdle(c, s, led, kv, s.waiting[k]);
      }
      assert World(c, s.pool, s.reqs, led) by { RestWorld(c, s, led, kv); }
      MatchWaitingOk(c, s, led, s.waiting);
      var prefixes := MatchWaiting(c, s, s.waiting).value;
      RankPermutes(c, prefixes, s.waiting);
      var ranked := Rank(c, prefixes, s.waiting);
      forall k | 0 <= k < |ranked|
        ensures ranked[k] < |s.reqs| && ranked[k] in s.waiting && ranked[k] !in ChunkIds(s, plan)
        ensures Idle(s.reqs[ranked[k]]) && s.reqs[ranked[k]].newToks == 0 && |s.reqs[ranked[k]].tokens| >= 1
        ensures ranked[k] in prefixes && PlanOk(c, s.pool, led, s.reqs[ranked[k]], prefixes[ranked[k]])
      {
        assert ranked[k] in s.waiting;
        WaitingIdle(c, s, led, kv, ranked[k]);
      }
    }
  }

  lemma RestWorld(c: Config, s: Sys, led: Ledger, kv: Memory)
    requires Nearly(c, s, led, kv)
    ensures World(c, s.pool, s.reqs, led)
  {
  }

  // ---------------------------------------------------------------- the frozen mode

  ghost predicate ChunkApart(s: Sys, todo: seq<Admission>, id: nat) {
    && id < |s.reqs| && id !in Ids(todo) && id !in s.waiting
    && s.reqs[id].newToks == 0 && s.reqs[id].status == Running
  }

  /** The chunk is appended between the claims and the allocations. */
  lemma AppendChunkHalfWay(c: Config, s0: Sys, s: Sys, led: Ledger, kv: Memory, plan: ChunkPlan, todo: seq<Admission>,
                           tokenBudget: nat, freeBudget: nat)
    returns (led': Ledger)
    requires Consistent(c, s.pool, s.reqs, led, kv) && |s.pool.pages| == c.numBlocks
    requires HalfWay(c, s0, s, [], todo)
    requires PlanChunk(c, s0, tokenBudget, freeBudget) == Ok(plan)
    requires s0.chunked.Some? ==> ChunkApart(s0, todo, s0.chunked.value)
    requires plan.blocks <= |s.pool.free|
    ensures AppendChunk(c, s, plan).Ok?
    ensures var s' := AppendChunk(c, s, plan).value;
            && Consistent(c, s'.pool, s'.reqs, led', kv) && |s'.pool.pages| == c.numBlocks
            && HalfWay(c, s0, s', ChunkIds(s0, plan), todo)
            && s'.waiting == s.waiting
            && |s'.pool.free| == |s.pool.free| - plan.blocks
            && SumNew(s'.reqs, ChunkIds(s0, plan)) == plan.tokens
            && (plan.scheduled ==>
                 s0.chunked.Some? && s0.chunked.value < |s'.reqs| && s'.reqs[s0.chunked.value].newToks == plan.tokens)
    ensures LedgerExtends(led, led')
  {
    hide Consistent, MayAppend;
    led' := led;
    if plan.scheduled && s.chunked.Some? {
      var id := s.chunked.value;
      assert HalfReq(c, s0, s, [], todo, id);
      led' := MayAppendOk(c, s.pool, s.reqs, led, kv, id, plan.tokens);
      var s' := AppendChunk(c, s, plan).value;
      HalfWayChunk(c, s0, s, s', todo, id);
      assert [] + [id] == [id];
      SumNewSnoc(s.reqs, id, s'.reqs[id], []);
    }
  }

  lemma HalfWayChunk(c: Config, s0: Sys, s: Sys, s': Sys, todo: seq<Admission>, id: nat)
    requires HalfWay(c, s0, s, [], todo) && id < |s0.reqs| && s0.chunked == Some(id) && id !in Ids(todo)
    requires |s'.reqs| == |s.reqs| && s'.reqs == s.reqs[id := s'.reqs[id]] && Filled(s0.reqs[id], s'.reqs[id])
    requires s'.waiting == s.waiting && s'.running == s.running && s'.chunked == s.chunked
    requires id !in s.waiting
    ensures HalfWay(c, s0, s', [id], todo)
  {
    forall x: nat | x < |s0.reqs|
      ensures HalfReq(c, s0, s', [id], todo, x)
    {
      assert HalfReq(c, s0, s, [], todo, x);
    }
    forall k | 0 <= k < |todo|
      ensures Todo(c, s0, s', [id], todo[k])
    {
      assert Todo(c, s0, s, [], todo[k]);
      assert Ids(todo)[k] == todo[k].id;
    }
  }

  /** What the claims leave is half way, and the chunk is not among the claimed. */
  lemma ClaimedHalfWay(c: Config, s: Sys, s1: Sys, led: Ledger, kv: Memory, plan: ChunkPlan, ranked: seq<nat>,
                       adm: seq<Admission>, tokens: nat, free: nat)
    requires Nearly(c, s, led, kv) && Candidates(s, ChunkIds(s, plan), ranked)
    requires FrozenPlan(c, s, led, ranked, adm, tokens, free, s.Live())
    requires ClaimedOnly(c, s, s1, adm)
    ensures HalfWay(c, s, s1, [], adm)
    ensures s.chunked.Some? ==> ChunkApart(s, adm, s.chunked.value)
  {
    hide Quiescent, PlanOk;
    forall k | 0 <= k < |adm|
      ensures Todo(c, s, s1, [], adm[k])
    {
      assert ClaimedReq(c, s, s1, adm[k]) && Planned(c, s, led, adm[k]);
      assert Ids(adm)[k] == ranked[k];
    }
    if s.chunked.Some? {
      var id := s.chunked.value;
      assert Placed(s, id) && Progress(s, id);
      forall k | 0 <= k < |adm|
        ensures Ids(adm)[k] != id
      {
        assert Ids(adm)[k] == ranked[k];
      }
    }
  }

  /** Frozen plans stay valid: the plan for each admitted request is claimable when its turn comes. */
  lemma FrozenClaimsOk(c: Config, s: Sys, led: Ledger, kv: Memory, plan: ChunkPlan, ranked: seq<nat>,
                       adm: seq<Admission>, tokens: nat, free: nat)
    requires Nearly(c, s, led, kv) && Candidates(s, ChunkIds(s, plan), ranked)
    requires FrozenPlan(c, s, led, ranked, adm, tokens, free, s.Live())
    ensures ClaimAdmitted(c, s, adm).Ok?
    ensures var s1 := ClaimAdmitted(c, s, adm).value;
            && Consistent(c, s1.pool, s1.reqs, led, kv) && |s1.pool.pages| == c.numBlocks
            && HalfWay(c, s, s1, [], adm)
            && (s.chunked.Some? ==> ChunkApart(s, adm, s.chunked.value))
            && s1.waiting == s.waiting
            && |s1.pool.free| + |ProtectedBy(s.pool, adm)| == |s.pool.free|
  {
    hide Consistent, Quiescent, PlanOk;
    QuiescentIsConsistent(c, s.pool, s.reqs, led, kv);
    forall k | 0 <= k < |adm|
      ensures Idle(s.reqs[adm[k].id]) && s.reqs[adm[k].id].newToks == 0
    {
      assert Planned(c, s, led, adm[k]);
      assert Ids(adm)[k] == ranked[k];
    }
    ClaimAdmittedOk(c, s, led, kv, adm);
    ClaimedHalfWay(c, s, ClaimAdmitted(c, s, adm).value, led, kv, plan, ranked, adm, tokens, free);
  }

  lemma FrozenPlanStart(c: Config, s: Sys, led: Ledger, ranked: seq<nat>, tokens: nat, free: nat, active: nat)
    ensures FrozenPlan(c, s, led, ranked, [], tokens, free, active)
    ensures Budgeted(c, s, [], tokens, free, tokens, free, {})
  {
    assert Ids([]) == ranked[..0];
  }

  lemma PrefillFrozenOk(c: Config, s: Sys, led: Ledger, kv: Memory, plan: ChunkPlan, prefixes: Prefixes,
                        ranked: seq<nat>, reserved: nat, tokenBudget: nat)
    returns (led': Ledger, m: nat)
    requires Nearly(c, s, led, kv) && reserved <= |s.pool.free|
    requires PlanChunk(c, s, tokenBudget, |s.pool.free| - reserved) == Ok(plan)
    requires Candidates(s, ChunkIds(s, plan), ranked) && Snapshot(c, s, led, prefixes, ranked)
    requires forall k :: 0 <= k < |ranked| ==> Idle(s.reqs[ranked[k]]) && |s.reqs[ranked[k]].tokens| >= 1
    ensures PrefillOutcome(c, s, led, led', kv, plan, ranked, m, reserved, PrefillFrozen(c, s, plan, prefixes, ranked))
  {
    hide ProtectedBy, NewPages, SumTokens, SumNew, RemoveAll, LedgerExtends, Complete, Nearly, Consistent, HalfWay,
         FrozenPlan, Mid, Snapshot, Candidates, Allocated, AppendChunk, AllocateAdmitted, ClaimAdmitted, PlanFrozen,
         Budgeted;
    FrozenPlanStart(c, s, led, ranked, plan.tokenBudget, plan.freeBudget, s.Live());
    PlanFrozenOk(c, s, led, prefixes, ranked, ranked, plan.tokenBudget, plan.freeBudget, plan.tokenBudget,
                 plan.freeBudget, {}, s.Live(), []);
    var adm := PlanFrozen(c, s, prefixes, ranked, plan.tokenBudget, plan.freeBudget, {}, s.Live(), []).value;
    m := |adm|;
    FrozenClaimsOk(c, s, led, kv, plan, ranked, adm, plan.tokenBudget, plan.freeBudget);
    var s1 := ClaimAdmitted(c, s, adm).value;
    FrozenBudgets(c, s, led, ranked, adm, plan.tokenBudget, plan.freeBudget);
    var led1 := AppendChunkHalfWay(c, s, s1, led, kv, plan, adm, tokenBudget, |s.pool.free| - reserved);
    var s2 := AppendChunk(c, s1, plan).value;
    led' := AllocateAdmittedOk(c, s, s2, led1, kv, ChunkIds(s, plan), adm);
    LedgerTrans(led, led1, led');
    var s3 := AllocateAdmitted(c, s2, adm).value;
    FrozenOutcome(c, s, s2, s3, led, plan, ranked, adm);
    forall k: nat | k < m && (k < m - 1 || !c.chunked)
      ensures Complete(s3, ranked[k])
    {
      FrozenPlaces(c, s, s3, led', kv, ChunkIds(s, plan) + Ids(adm));
      FrozenComplete(c, s, s2, s3, led, plan, ranked, adm, k);
    }
  }

  lemma FrozenPlaces(c: Config, s0: Sys, s: Sys, led: Ledger, kv: Memory, pre: seq<nat>)
    requires Mid(c, s0, s, led, kv, pre)
    ensures MidPlaces(s0, s, pre) && |s.reqs| == |s0.reqs|
  {
  }

  lemma FrozenBudgets(c: Config, s: Sys, led: Ledger, ranked: seq<nat>, adm: seq<Admission>, tokens: nat, free: nat)
    requires FrozenPlan(c, s, led, ranked, adm, tokens, free, s.Live())
    ensures |adm| <= |ranked| && Ids(adm) == ranked[..|adm|]
    ensures |ProtectedBy(s.pool, adm)| + NewPages(c, adm) <= free && SumTokens(c, adm) <= tokens
    ensures |adm| > 0 ==> s.Live() + |adm| <= c.maxSeqs
  {
    hide PlanOk;
  }

  /** An admission planned to reach the end of its tokens has done so. */
  lemma FrozenComplete(c: Config, s: Sys, s2: Sys, s3: Sys, led: Ledger, plan: ChunkPlan, ranked: seq<nat>,
                       adm: seq<Admission>, k: nat)
    requires FrozenPlan(c, s, led, ranked, adm, plan.tokenBudget, plan.freeBudget, s.Live())
    requires Allocated(c, s2, s3, ChunkIds(s, plan), adm)
    requires MidPlaces(s, s3, ChunkIds(s, plan) + Ids(adm))
    requires k < |adm| && (k < |adm| - 1 || !c.chunked)
    ensures Complete(s3, ranked[k])
  {
    hide PlanOk;
    assert Finishing(s, adm[k]);
    assert Ids(adm)[k] == ranked[k];
    assert ranked[k] in ChunkIds(s, plan) + Ids(adm);
    assert MidReq(s, s3, ChunkIds(s, plan) + Ids(adm), ranked[k]);
  }

  lemma FrozenOutcome(c: Config, s: Sys, s2: Sys, s3: Sys, led: Ledger, plan: ChunkPlan, ranked: seq<nat>,
                      adm: seq<Admission>)
    requires FrozenPlan(c, s, led, ranked, adm, plan.tokenBudget, plan.freeBudget, s.Live())
    requires Allocated(c, s2, s3, ChunkIds(s, plan), adm)
    requires HalfWay(c, s, s2, ChunkIds(s, plan), adm)
    requires s2.waiting == s.waiting && SumNew(s2.reqs, ChunkIds(s, plan)) == plan.tokens
    requires plan.scheduled && s.chunked.Some? ==>
               s.chunked.value < |s2.reqs| && s2.reqs[s.chunked.value].newToks == plan.tokens
    ensures s3.waiting == RemoveAll(s.waiting, Ids(adm))
    ensures |s3.pool.free| + NewPages(c, adm) == |s2.pool.free|
    ensures SumNew(s3.reqs, ChunkIds(s, plan) + Ids(adm)) <= plan.tokens + plan.tokenBudget
    ensures plan.scheduled && s.chunked.Some? ==>
              s.chunked.value < |s3.reqs| && s3.reqs[s.chunked.value].newToks == plan.tokens
  {
    hide PlanOk;
    if plan.scheduled && s.chunked.Some? {
      forall k | 0 <= k < |adm|
        ensures Ids(adm)[k] != s.chunked.value
      {
        assert Todo(c, s, s2, ChunkIds(s, plan), adm[k]);
      }
    }
  }

  // ---------------------------------------------------------------- decode

  lemma {:induction false} SumAppendFrame(c: Config, reqs: seq<Req>, reqs': seq<Req>, ids: seq<nat>)
    requires |reqs'| == |reqs|
    requires forall k :: 0 <= k < |ids| && ids[k] < |reqs| ==> reqs'[ids[k]] == reqs[ids[k]]
    ensures SumAppend(c, reqs', ids) == SumAppend(c, reqs, ids)
  {
    if ids != [] {
      SumAppendFrame(c, reqs, reqs', ids[1..]);
    }
  }

  /** Requests that wait for exactly one token, none of them touched in this step yet. */
  ghost predicate DecodeReady(s0: Sys, pre: seq<nat>, ids: seq<nat>) {
    && NoDup(ids)
    && forall k :: 0 <= k < |ids| ==>
         && ids[k] < |s0.reqs| && ids[k] in s0.running && ids[k] !in pre && ids[k] !in s0.waiting
         && s0.reqs[ids[k]].status == Running
         && s0.reqs[ids[k]].newToks == 0 && s0.reqs[ids[k]].cached + 1 == |s0.reqs[ids[k]].tokens|
  }

  lemma DecodeOne(c: Config, s0: Sys, s: Sys, led: Ledger, kv: Memory, pre: seq<nat>, ids: seq<nat>)
    returns (led': Ledger)
    requires Mid(c, s0, s, led, kv, pre) && DecodeReady(s0, pre, ids) && ids != []
    requires SumAppend(c, s.reqs, ids) <= |s.pool.free|
    ensures |s.Get(ids[0]).tokens| == s.Get(ids[0]).cached + 1
    ensures ScheduleAppend(c, s, ids[0], 1).Ok?
    ensures var s' := ScheduleAppend(c, s, ids[0], 1).value;
            && Mid(c, s0, s', led', kv, pre + [ids[0]])
            && s'.waiting == s.waiting
            && Complete(s', ids[0]) && s'.reqs[ids[0]].newToks == 1
            && (forall x: nat :: x < |s.reqs| && x != ids[0] ==> s'.reqs[x] == s.reqs[x])
            && SumAppend(c, s'.reqs, ids[1..]) <= |s'.pool.free|
            && SumNew(s'.reqs, pre + [ids[0]]) == SumNew(s.reqs, pre) + 1
    ensures LedgerExtends(led, led')
  {
    hide Consistent, MayAppend;
    var id := ids[0];
    assert MidReq(s0, s, pre, id);
    led' := MayAppendOk(c, s.pool, s.reqs, led, kv, id, 1);
    var s' := ScheduleAppend(c, s, id, 1).value;
    assert s'.reqs == s.reqs[id := s'.reqs[id]];
    MidSnoc(s0, s, s', pre, id);
    SumNewSnoc(s.reqs, id, s'.reqs[id], pre);
    forall k | 0 <= k < |ids[1..]| && ids[1..][k] < |s.reqs|
      ensures s'.reqs[ids[1..][k]] == s.reqs[ids[1..][k]]
    {
      assert ids[1..][k] == ids[k + 1] != ids[0];
    }
    SumAppendFrame(c, s.reqs, s'.reqs, ids[1..]);
  }

  /** Every request in `ids` got exactly its one token; nobody else changed. */
  ghost predicate Decoded(s: Sys, s': Sys, pre: seq<nat>, ids: seq<nat>) {
    && s'.waiting == s.waiting && |s'.reqs| == |s.reqs|
    && (forall k :: 0 <= k < |ids| ==> Complete(s', ids[k]) && s'.reqs[ids[k]].newToks == 1)
    && (forall x: nat :: x < |s.reqs| && x !in ids ==> s'.reqs[x] == s.reqs[x])
    && SumNew(s'.reqs, pre + ids) == SumNew(s.reqs, pre) + |ids|
  }

  lemma DecodedStep(s: Sys, s1: Sys, s': Sys, pre: seq<nat>, ids: seq<nat>)
    requires ids != [] && ids[0] !in ids[1..] && |s1.reqs| == |s.reqs| && s1.waiting == s.waiting
    requires Complete(s1, ids[0]) && s1.reqs[ids[0]].newToks == 1
    requires forall x: nat :: x < |s.reqs| && x != ids[0] ==> s1.reqs[x] == s.reqs[x]
    requires SumNew(s1.reqs, pre + [ids[0]]) == SumNew(s.reqs, pre) + 1
    requires Decoded(s1, s', pre + [ids[0]], ids[1..])
    ensures Decoded(s, s', pre, ids)
  {
    assert pre + [ids[0]] + ids[1..] == pre + ids;
    forall k | 0 <= k < |ids|
      ensures Complete(s', ids[k]) && s'.reqs[ids[k]].newToks == 1
    {
      if k > 0 { assert ids[k] == ids[1..][k - 1]; }
    }
  }

  /** The decode reservation is exact: every decode request gets its page, and every assertion holds. */
  lemma {:induction false} DecodeAllOk(c: Config, s0: Sys, s: Sys, led: Ledger, kv: Memory, pre: seq<nat>,
                                       ids: seq<nat>)
    returns (led': Ledger)
    requires Mid(c, s0, s, led, kv, pre) && DecodeReady(s0, pre, ids)
    requires SumAppend(c, s.reqs, ids) <= |s.pool.free|
    ensures DecodeAll(c, s, ids).Ok?
    ensures Mid(c, s0, DecodeAll(c, s, ids).value, led', kv, pre + ids)
    ensures Decoded(s, DecodeAll(c, s, ids).value, pre, ids)
    ensures LedgerExtends(led, led')
    decreases |ids|
  {
    hide Mid, ScheduleAppend, Decoded;
    if ids == [] {
      led' := led;
      assert pre + ids == pre;
      DecodedNone(s, pre, ids);
    } else {
      var led1 := DecodeOne(c, s0, s, led, kv, pre, ids);
      var s1 := ScheduleAppend(c, s, ids[0], 1).value;
      MidLengths(c, s0, s, led, kv, pre);
      MidLengths(c, s0, s1, led1, kv, pre + [ids[0]]);
      DecodeRest(s0, pre, ids);
      led' := DecodeAllOk(c, s0, s1, led1, kv, pre + [ids[0]], ids[1..]);
      LedgerTrans(led, led1, led');
      assert pre + [ids[0]] + ids[1..] == pre + ids;
      DecodedStep(s, s1, DecodeAll(c, s1, ids[1..]).value, pre, ids);
    }
  }

  lemma DecodedNone(s: Sys, pre: seq<nat>, ids: seq<nat>)
    requires ids == []
    ensures Decoded(s, s, pre, ids)
  {
    assert pre + ids == pre;
  }

  lemma MidLengths(c: Config, s0: Sys, s: Sys, led: Ledger, kv: Memory, pre: seq<nat>)
    requires Mid(c, s0, s, led, kv, pre)
    ensures |s.reqs| == |s0.reqs|
  {
  }

  lemma DecodeRest(s0: Sys, pre: seq<nat>, ids: seq<nat>)
    requires DecodeReady(s0, pre, ids) && ids != []
    ensures DecodeReady(s0, pre + [ids[0]], ids[1..]) && ids[0] !in ids[1..]
  {
  }

  // ---------------------------------------------------------------- the whole step

  /** A scheduled batch: first the prefills, all complete but possibly the last, then every running request. */
  ghost predicate Scheduled(c: Config, s0: Sys, b: Batch, led: Ledger, kv: Memory) {
    && Mid(c, s0, b.sys, led, kv, b.seqs)
    && b.numPrefill <= |b.seqs| && b.seqs != []
    && b.seqs[b.numPrefill..] == s0.running
    && (forall k :: b.numPrefill <= k < |b.seqs| ==> Complete(b.sys, b.seqs[k]) && b.sys.reqs[b.seqs[k]].newToks == 1)
    && (forall k :: 0 <= k < b.numPrefill ==> k < b.numPrefill - 1 || !c.chunked ==> Complete(b.sys, b.seqs[k]))
    && SumNew(b.sys.reqs, b.seqs) <= c.maxBatch
    && (s0.chunked.Some? && s0.chunked.value !in b.seqs ==> b.numPrefill == 0)
    && |s0.running| + b.numPrefill + (if s0.chunked.Some? && s0.chunked.value !in b.seqs then 1 else 0) <= c.maxSeqs
  }

  /** The requests of `s` that are not in `xs`, in their order in `s`. */
  function Without(s: seq<nat>, xs: seq<nat>): seq<nat> {
    if s == [] then [] else (if s[0] in xs then [] else [s[0]]) + Without(s[1..], xs)
  }

  lemma {:induction false} WithoutRemoved(s: seq<nat>, x: nat, xs: seq<nat>)
    requires NoDup(s)
    ensures Without(Remove(s, x), xs) == Without(s, [x] + xs)
  {
    if s != [] {
      assert NoDup(s[1..]);
      if s[0] == x {
        WithoutOther(s[1..], x, xs);
      } else {
        WithoutRemoved(s[1..], x, xs);
        assert ([s[0]] + Remove(s[1..], x))[1..] == Remove(s[1..], x);
      }
    }
  }

  lemma {:induction false} WithoutOther(s: seq<nat>, x: nat, xs: seq<nat>)
    requires x !in s
    ensures Without(s, xs) == Without(s, [x] + xs)
  {
    if s != [] {
      WithoutOther(s[1..], x, xs);
    }
  }

  lemma {:induction false} WithoutNone(s: seq<nat>)
    ensures Without(s, []) == s
  {
    if s != [] {
      WithoutNone(s[1..]);
    }
  }

  /** Removing requests one by one from the deque leaves the others in their original order. */
  lemma {:induction false} RemoveAllKeepsOrder(s: seq<nat>, xs: seq<nat>)
    requires NoDup(s)
    ensures RemoveAll(s, xs) == Without(s, xs)
    decreases |xs|
  {
    if xs == [] {
      WithoutNone(s);
    } else {
      RemoveSound(s, xs[0]);
      RemoveAllKeepsOrder(Remove(s, xs[0]), xs[1..]);
      WithoutRemoved(s, xs[0], xs[1..]);
      assert xs == [xs[0]] + xs[1..];
    }
  }

  /** No bypass: behind the chunk the batch holds the first `m` requests of the ranking, then all the running ones;
      the requests that were not admitted wait in their original order. */
  ghost predicate NoBypass(c: Config, s0: Sys, b: Batch, m: nat) {
    && PlanStep(c, s0).Ok?
    && var p := PlanStep(c, s0).value;
    && m <= |p.ranked|
    && b.seqs == ChunkIds(s0, p.chunk) + p.ranked[..m] + s0.running
    && b.numPrefill == |ChunkIds(s0, p.chunk)| + m
    && (p.chunk.scheduled && s0.chunked.Some? ==> b.sys.Get(s0.chunked.value).newToks == p.chunk.tokens)
    && b.sys.waiting == Without(s0.waiting, p.ranked[..m])
  }

  /** Decode leaves the chunk its tokens. */
  lemma ChunkPortion(c: Config, s0: Sys, s: Sys, s': Sys, led: Ledger, led': Ledger, kv: Memory, plan: ChunkPlan,
                     ranked: seq<nat>,
                     m: nat, reserved: nat, res: Result<(Sys, seq<nat>)>)
    requires PrefillOutcome(c, s0, led, led', kv, plan, ranked, m, reserved, res) && res.value.0 == s
    requires Decoded(s, s', ChunkIds(s0, plan) + ranked[..m], s0.running)
    requires DecodeReady(s0, ChunkIds(s0, plan) + ranked[..m], s0.running)
    ensures plan.scheduled && s0.chunked.Some? ==> s'.Get(s0.chunked.value).newToks == plan.tokens
  {
    hide Mid, SumNew, RemoveAll;
    if plan.scheduled && s0.chunked.Some? {
      var id := s0.chunked.value;
      assert id in ChunkIds(s0, plan) + ranked[..m];
      forall k | 0 <= k < |s0.running|
        ensures s0.running[k] != id
      {
        assert s0.running[k] !in ChunkIds(s0, plan) + ranked[..m];
      }
    }
  }

  lemma RunningReady(c: Config, s: Sys, led: Ledger, kv: Memory, plan: ChunkPlan, ranked: seq<nat>, m: nat)
    requires AtRest(c, s, led, kv) && Candidates(s, ChunkIds(s, plan), ranked) && m <= |ranked|
    ensures DecodeReady(s, ChunkIds(s, plan) + ranked[..m], s.running)
  {
    hide Quiescent;
    var pre := ChunkIds(s, plan) + ranked[..m];
    forall k | 0 <= k < |s.running|
      ensures s.running[k] < |s.reqs| && s.running[k] !in pre && s.running[k] !in s.waiting
      ensures s.reqs[s.running[k]].status == Running
      ensures s.reqs[s.running[k]].newToks == 0 && s.reqs[s.running[k]].cached + 1 == |s.reqs[s.running[k]].tokens|
    {
      var id := s.running[k];
      assert Placed(s, id) && Progress(s, id);
      forall j | 0 <= j < m ensures ranked[j] != id { assert ranked[j] in s.waiting; }
    }
  }

  /** The prefill half of a planned step. */
  lemma PrefillOk(c: Config, s: Sys, led: Ledger, kv: Memory, p: StepPlan) returns (led': Ledger, m: nat)
    requires Nearly(c, s, led, kv) && PlanStep(c, s) == Ok(p)
    ensures Candidates(s, ChunkIds(s, p.chunk), p.ranked)
    ensures PrefillOutcome(c, s, led, led', kv, p.chunk, p.ranked, m, p.reserved, PrefillStep(c, s, p))
  {
    hide Nearly, PrefillOutcome, Snapshot, PrefillSameStep, PrefillFrozen, PlanChunk, SumAppend, RankedWaiting;
    RankedWaitingOk(c, s, led, kv, p.chunk);
    if c.sameStep {
      led', m := PrefillSameStepOk(c, s, led, kv, p.chunk, p.ranked, p.reserved, c.maxBatch - |s.running|);
    } else {
      led', m := PrefillFrozenOk(c, s, led, kv, p.chunk, p.prefixes, p.ranked, p.reserved, c.maxBatch - |s.running|);
    }
  }

  /** Planning a step never fails once the running requests fit. */
  lemma PlanStepOk(c: Config, s: Sys, led: Ledger, kv: Memory)
    requires Nearly(c, s, led, kv) && DecodeFits(c, s)
    ensures PlanStep(c, s).Ok?
    ensures var p := PlanStep(c, s).value;
            && p.reserved == SumAppend(c, s.reqs, s.running)
            && PlanChunk(c, s, c.maxBatch - |s.running|, |s.pool.free| - p.reserved) == Ok(p.chunk)
            && RankedWaiting(c, s, p.chunk) == Ok((p.prefixes, p.ranked))
  {
    hide Nearly, PlanChunk, RankedWaiting, SumAppend, Snapshot, Candidates;
    var reserved := SumAppend(c, s.reqs, s.running);
    PlanChunkOk(c, s, led, kv, c.maxBatch - |s.running|, |s.pool.free| - reserved);
    RankedWaitingOk(c, s, led, kv, PlanChunk(c, s, c.maxBatch - |s.running|, |s.pool.free| - reserved).value);
  }

  lemma PlanChunkOk(c: Config, s: Sys, led: Ledger, kv: Memory, tokenBudget: nat, freeBudget: nat)
    requires Nearly(c, s, led, kv)
    ensures PlanChunk(c, s, tokenBudget, freeBudget).Ok?
    ensures var plan := PlanChunk(c, s, tokenBudget, freeBudget).value;
            && plan.tokens + plan.tokenBudget == tokenBudget
            && plan.blocks + plan.freeBudget == freeBudget
            && (s.chunked.Some? && !plan.scheduled ==> !plan.allowWaiting)
            && (plan.scheduled ==> s.chunked.Some? && plan.tokens > 0)
            && (plan.scheduled && plan.allowWaiting ==>
                 plan.tokens == |s.reqs[s.chunked.value].tokens| - s.reqs[s.chunked.value].cached)
  {
    hide Quiescent;
    if s.chunked.Some? {
      assert Placed(s, s.chunked.value);
      assert Progress(s, s.chunked.value) && ReqLimits(c, s.reqs[s.chunked.value]);
    }
  }

  /** Nothing the prefill half did changed what decode will need. */
  lemma ReservationKept(c: Config, s0: Sys, s: Sys, led: Ledger, kv: Memory, pre: seq<nat>, ids: seq<nat>)
    requires Mid(c, s0, s, led, kv, pre) && DecodeReady(s0, pre, ids)
    ensures SumAppend(c, s.reqs, ids) == SumAppend(c, s0.reqs, ids)
  {
    hide Consistent;
    forall k | 0 <= k < |ids| && ids[k] < |s0.reqs|
      ensures s.reqs[ids[k]] == s0.reqs[ids[k]]
    {
      assert MidReq(s0, s, pre, ids[k]);
    }
    SumAppendFrame(c, s0.reqs, s.reqs, ids);
  }

  /** A resumed chunk that did not get all it wanted is the only prefill of its step. */
  lemma ChunkComplete(c: Config, s0: Sys, s: Sys, led: Ledger, kv: Memory, plan: ChunkPlan, pre: seq<nat>)
    requires Mid(c, s0, s, led, kv, pre) && plan.scheduled && s0.chunked.Some? && s0.chunked.value in pre
    requires s0.chunked.value < |s.reqs| && s.reqs[s0.chunked.value].newToks == plan.tokens
    requires plan.tokens == |s0.reqs[s0.chunked.value].tokens| - s0.reqs[s0.chunked.value].cached
    ensures Complete(s, s0.chunked.value)
  {
    hide Consistent;
    assert MidReq(s0, s, pre, s0.chunked.value);
  }

  /** Which of the prefills may be incomplete: only the last, and none when chunking is off. */
  lemma PrefillsComplete(c: Config, s0: Sys, s: Sys, led: Ledger, led': Ledger, kv: Memory, plan: ChunkPlan,
                         ranked: seq<nat>, m: nat,
                         reserved: nat, res: Result<(Sys, seq<nat>)>, k: nat)
    requires PrefillOutcome(c, s0, led, led', kv, plan, ranked, m, reserved, res) && res.value.0 == s
    requires plan.scheduled ==> s0.chunked.Some? && s0.chunked.value < |s0.reqs| && c.chunked
    requires plan.scheduled && plan.allowWaiting ==>
               plan.tokens == |s0.reqs[s0.chunked.value].tokens| - s0.reqs[s0.chunked.value].cached
    requires !plan.allowWaiting ==> ranked == []
    requires var n := |ChunkIds(s0, plan)| + m; k < n && (k < n - 1 || !c.chunked)
    ensures Complete(s, (ChunkIds(s0, plan) + ranked[..m])[k])
  {
    hide Mid, RemoveAll, SumNew;
    var chunk := ChunkIds(s0, plan);
    if k < |chunk| {
      ChunkComplete(c, s0, s, led', kv, plan, chunk + ranked[..m]);
    } else {
      assert (chunk + ranked[..m])[k] == ranked[k - |chunk|];
    }
  }

  /** The prefills of the batch, once decode is done. */
  lemma BatchPrefills(c: Config, s0: Sys, s: Sys, s': Sys, led: Ledger, led1: Ledger, kv: Memory, plan: ChunkPlan,
                      ranked: seq<nat>, m: nat, reserved: nat, res: Result<(Sys, seq<nat>)>, k: nat)
    requires Nearly(c, s0, led, kv) && |s0.running| <= c.maxBatch && reserved <= |s0.pool.free|
    requires PlanChunk(c, s0, c.maxBatch - |s0.running|, |s0.pool.free| - reserved) == Ok(plan)
    requires !plan.allowWaiting ==> ranked == []
    requires PrefillOutcome(c, s0, led, led1, kv, plan, ranked, m, reserved, res) && res.value.0 == s
    requires Decoded(s, s', ChunkIds(s0, plan) + ranked[..m], s0.running)
    requires DecodeReady(s0, ChunkIds(s0, plan) + ranked[..m], s0.running)
    requires var n := |ChunkIds(s0, plan)| + m; k < n && (k < n - 1 || !c.chunked)
    ensures Complete(s', (ChunkIds(s0, plan) + ranked[..m])[k])
  {
    hide Nearly, PlanChunk, PrefillOutcome, Decoded, DecodeReady, Complete;
    OutcomeFacts(c, s0, led, led1, kv, plan, ranked, m, reserved, res);
    PlanChunkOk(c, s0, led, kv, c.maxBatch - |s0.running|, |s0.pool.free| - reserved);
    ChunkedOnly(c, s0, led, kv);
    PrefillsComplete(c, s0, s, led, led1, kv, plan, ranked, m, reserved, res, k);
    StaysComplete(s0, s, s', ChunkIds(s0, plan) + ranked[..m], k);
  }

  /** The budgets of the batch. */
  lemma BatchBudgets(c: Config, s0: Sys, s: Sys, s': Sys, led: Ledger, led1: Ledger, kv: Memory, plan: ChunkPlan,
                     ranked: seq<nat>, m: nat, reserved: nat, res: Result<(Sys, seq<nat>)>)
    requires Nearly(c, s0, led, kv) && |s0.running| <= c.maxBatch && reserved <= |s0.pool.free|
    requires PlanChunk(c, s0, c.maxBatch - |s0.running|, |s0.pool.free| - reserved) == Ok(plan)
    requires !plan.allowWaiting ==> ranked == []
    requires PrefillOutcome(c, s0, led, led1, kv, plan, ranked, m, reserved, res) && res.value.0 == s
    requires Decoded(s, s', ChunkIds(s0, plan) + ranked[..m], s0.running)
    ensures var pre := ChunkIds(s0, plan) + ranked[..m];
            && SumNew(s'.reqs, pre + s0.running) <= c.maxBatch
            && (s0.chunked.Some? && s0.chunked.value !in pre + s0.running ==> |pre| == 0)
            && |s0.running| + |pre| + (if s0.chunked.Some? && s0.chunked.value !in pre + s0.running then 1 else 0)
               <= c.maxSeqs
  {
    hide Nearly, PlanChunk, Mid, RemoveAll, SumNew, Complete;
    PlanChunkOk(c, s0, led, kv, c.maxBatch - |s0.running|, |s0.pool.free| - reserved);
    ChunkedOnly(c, s0, led, kv);
    if s0.chunked.Some? && plan.scheduled {
      assert (ChunkIds(s0, plan) + ranked[..m] + s0.running)[0] == s0.chunked.value;
    }
  }

  lemma BatchScheduled(c: Config, s0: Sys, s: Sys, s': Sys, led: Ledger, led1: Ledger, led': Ledger, kv: Memory,
                       plan: ChunkPlan, ranked: seq<nat>,
                       m: nat, reserved: nat, res: Result<(Sys, seq<nat>)>)
    requires AtRest(c, s0, led, kv) && |s0.running| <= c.maxBatch && reserved <= |s0.pool.free|
    requires PlanChunk(c, s0, c.maxBatch - |s0.running|, |s0.pool.free| - reserved) == Ok(plan)
    requires !plan.allowWaiting ==> ranked == []
    requires PrefillOutcome(c, s0, led, led1, kv, plan, ranked, m, reserved, res) && res.value.0 == s
    requires Mid(c, s0, s', led', kv, ChunkIds(s0, plan) + ranked[..m] + s0.running)
    requires Decoded(s, s', ChunkIds(s0, plan) + ranked[..m], s0.running)
    requires DecodeReady(s0, ChunkIds(s0, plan) + ranked[..m], s0.running)
    requires ChunkIds(s0, plan) + ranked[..m] + s0.running != []
    requires Candidates(s0, ChunkIds(s0, plan), ranked)
    ensures Scheduled(c, s0, Batch(s', ChunkIds(s0, plan) + ranked[..m] + s0.running, |ChunkIds(s0, plan)| + m), led',
                      kv)
  {
    hide Mid, SumNew, Nearly, PlanChunk, Candidates, PrefillOutcome, DecodeReady, Decoded, ChunkIds;
    OutcomeFacts(c, s0, led, led1, kv, plan, ranked, m, reserved, res);
    var pre := ChunkIds(s0, plan) + ranked[..m];
    var b := Batch(s', pre + s0.running, |pre|);
    RestIsSteppable(c, s0, led, kv);
    BatchBudgets(c, s0, s, s', led, led1, kv, plan, ranked, m, reserved, res);
    assert b.seqs[|pre|..] == s0.running;
    forall k | 0 <= k < |pre| && (k < |pre| - 1 || !c.chunked)
      ensures Complete(s', b.seqs[k])
    {
      BatchPrefills(c, s0, s, s', led, led1, kv, plan, ranked, m, reserved, res, k);
      assert b.seqs[k] == pre[k];
    }
    forall k | b.numPrefill <= k < |b.seqs|
      ensures Complete(s', b.seqs[k]) && s'.reqs[b.seqs[k]].newToks == 1
    {
      DecodedPart(s, s', pre, s0.running, k);
    }
  }

  lemma DecodedPart(s: Sys, s': Sys, pre: seq<nat>, ids: seq<nat>, k: nat)
    requires Decoded(s, s', pre, ids) && |pre| <= k < |pre + ids|
    ensures Complete(s', (pre + ids)[k]) && s'.reqs[(pre + ids)[k]].newToks == 1
  {
    hide SumNew;
    assert (pre + ids)[k] == ids[k - |pre|];
  }

  lemma ChunkedOnly(c: Config, s: Sys, led: Ledger, kv: Memory)
    requires Nearly(c, s, led, kv)
    ensures s.chunked.Some? ==> c.chunked && s.chunked.value < |s.reqs|
    ensures s.Live() <= c.maxSeqs
  {
  }

  /** Decode leaves a complete prefill alone. */
  lemma StaysComplete(s0: Sys, s: Sys, s': Sys, pre: seq<nat>, k: nat)
    requires k < |pre| && Complete(s, pre[k]) && Decoded(s, s', pre, s0.running) && DecodeReady(s0, pre, s0.running)
    ensures Complete(s', pre[k])
  {
    hide SumNew;
    forall j | 0 <= j < |s0.running|
      ensures s0.running[j] != pre[k]
    {
      assert s0.running[j] !in pre;
    }
  }

  /** Nobody runs, and neither the chunk nor a waiting request was given anything. */
  ghost predicate EmptyPrefill(c: Config, s: Sys) {
    && s.running == [] && PlanStep(c, s).Ok?
    && var p := PlanStep(c, s).value;
    && var v := PrefillStep(c, s, p);
    v.Ok? && ChunkIds(s, p.chunk) == [] && v.value.1 == []
  }

  /** The decode half of a planned step. */
  lemma DecodeOk(c: Config, s: Sys, led: Ledger, led1: Ledger, kv: Memory, p: StepPlan, m: nat) returns (led': Ledger)
    requires AtRest(c, s, led, kv) && PlanStep(c, s) == Ok(p) && Candidates(s, ChunkIds(s, p.chunk), p.ranked)
    requires PrefillOutcome(c, s, led, led1, kv, p.chunk, p.ranked, m, p.reserved, PrefillStep(c, s, p))
    ensures PrefillStep(c, s, p).Ok? && m <= |p.ranked| && DecodeAll(c, PrefillStep(c, s, p).value.0, s.running).Ok?
    ensures var s1 := PrefillStep(c, s, p).value.0;
            var s' := DecodeAll(c, s1, s.running).value;
            var pre := ChunkIds(s, p.chunk) + p.ranked[..m];
            && Mid(c, s, s', led', kv, pre + s.running) && Decoded(s1, s', pre, s.running)
            && DecodeReady(s, pre, s.running)
    ensures LedgerExtends(led, led')
  {
    hide AtRest, Mid, PrefillOutcome, Candidates, Decoded, DecodeReady, PrefillStep, DecodeAll, PlanChunk,
         RankedWaiting, SumAppend;
    OutcomeFacts(c, s, led, led1, kv, p.chunk, p.ranked, m, p.reserved, PrefillStep(c, s, p));
    var s1 := PrefillStep(c, s, p).value.0;
    var pre := ChunkIds(s, p.chunk) + p.ranked[..m];
    RunningReady(c, s, led, kv, p.chunk, p.ranked, m);
    ReservationKept(c, s, s1, led1, kv, pre, s.running);
    led' := DecodeAllOk(c, s, s1, led1, kv, pre, s.running);
    LedgerTrans(led, led1, led');
  }

  lemma BatchProper(c: Config, s: Sys, led: Ledger, led1: Ledger, led': Ledger, kv: Memory, p: StepPlan, m: nat,
                    s': Sys)
    requires AtRest(c, s, led, kv) && PlanStep(c, s) == Ok(p) && Candidates(s, ChunkIds(s, p.chunk), p.ranked)
    requires PrefillOutcome(c, s, led, led1, kv, p.chunk, p.ranked, m, p.reserved, PrefillStep(c, s, p))
    requires PrefillStep(c, s, p).Ok? && m <= |p.ranked|
    requires var pre := ChunkIds(s, p.chunk) + p.ranked[..m];
             && Mid(c, s, s', led', kv, pre + s.running) && Decoded(PrefillStep(c, s, p).value.0, s', pre, s.running)
             && DecodeReady(s, pre, s.running) && pre + s.running != []
    ensures var pre := ChunkIds(s, p.chunk) + p.ranked[..m];
            var b := Batch(s', pre + s.running, |pre|);
            Scheduled(c, s, b, led', kv) && NoBypass(c, s, b, m)
  {
    hide AtRest, Nearly, Mid, PrefillOutcome, Candidates, Decoded, DecodeReady, Scheduled, PrefillStep, PlanChunk,
         RankedWaiting, SumAppend;
    RestIsSteppable(c, s, led, kv);
    var res := PrefillStep(c, s, p);
    OutcomeFacts(c, s, led, led1, kv, p.chunk, p.ranked, m, p.reserved, res);
    var s1 := res.value.0;
    var pre := ChunkIds(s, p.chunk) + p.ranked[..m];
    RankedEmpty(c, s, p.chunk);
    DecodedWaiting(s1, s', pre, s.running);
    WaitingNoDup(c, s, led, kv);
    RemoveAllKeepsOrder(s.waiting, p.ranked[..m]);
    ChunkPortion(c, s, s1, s', led, led1, kv, p.chunk, p.ranked, m, p.reserved, res);
    BatchScheduled(c, s, s1, s', led, led1, led', kv, p.chunk, p.ranked, m, p.reserved, res);
  }

  /** No assertion of `schedule` ever fails: it returns a proper batch, or raises for lack of budget. */
  lemma ScheduleFromOk(c: Config, s: Sys, led: Ledger, kv: Memory) returns (led': Ledger, m: nat)
    requires AtRest(c, s, led, kv) && DecodeFits(c, s)
    ensures var res := ScheduleFrom(c, s);
            if res.Ok? then Scheduled(c, s, res.value, led', kv) && NoBypass(c, s, res.value, m)
            else (res.error == PromptTooLong || res.error == NoProgress) && EmptyPrefill(c, s)
    ensures LedgerExtends(led, led')
  {
    hide AtRest, Nearly, Mid, PrefillOutcome, Candidates, Decoded, DecodeReady, Scheduled, PlanStep, PrefillStep,
         DecodeAll, MatchPrefix, NoBypass, DecodeFits, EmptyBatchError;
    RestIsSteppable(c, s, led, kv);
    PlanStepOk(c, s, led, kv);
    var p := PlanStep(c, s).value;
    var led1;
    led1, m := PrefillOk(c, s, led, kv, p);
    OutcomeFacts(c, s, led, led1, kv, p.chunk, p.ranked, m, p.reserved, PrefillStep(c, s, p));
    led' := DecodeOk(c, s, led, led1, kv, p, m);
    var s' := DecodeAll(c, PrefillStep(c, s, p).value.0, s.running).value;
    var pre := ChunkIds(s, p.chunk) + p.ranked[..m];
    if pre + s.running == [] {
      EmptyBatchOk(c, s, s', led, led', kv, p.chunk, p.prefixes, p.ranked, pre);
    } else {
      BatchProper(c, s, led, led1, led', kv, p, m, s');
    }
  }

  lemma DecodedWaiting(s: Sys, s': Sys, pre: seq<nat>, ids: seq<nat>)
    requires Decoded(s, s', pre, ids)
    ensures s'.waiting == s.waiting
  {
  }

  lemma WaitingNoDup(c: Config, s: Sys, led: Ledger, kv: Memory)
    requires Nearly(c, s, led, kv)
    ensures NoDup(s.waiting)
  {
  }

  lemma RankedEmpty(c: Config, s: Sys, plan: ChunkPlan)
    requires RankedWaiting(c, s, plan).Ok?
    ensures !plan.allowWaiting ==> RankedWaiting(c, s, plan).value.1 == []
  {
  }

  lemma OutcomeFacts(c: Config, s0: Sys, led: Ledger, led': Ledger, kv: Memory, plan: ChunkPlan, ranked: seq<nat>,
                     m: nat, reserved: nat, res: Result<(Sys, seq<nat>)>)
    requires PrefillOutcome(c, s0, led, led', kv, plan, ranked, m, reserved, res)
    ensures res.Ok? && m <= |ranked| && res.value.1 == ranked[..m]
    ensures Mid(c, s0, res.value.0, led', kv, ChunkIds(s0, plan) + ranked[..m])
    ensures reserved <= |res.value.0.pool.free| && LedgerExtends(led, led')
    ensures res.value.0.waiting == RemoveAll(s0.waiting, ranked[..m])
  {
    hide Mid;
  }

  lemma EmptyBatchOk(c: Config, s0: Sys, s: Sys, led0: Ledger, led: Ledger, kv: Memory, plan: ChunkPlan,
                     prefixes: Prefixes, ranked: seq<nat>, pre: seq<nat>)
    requires AtRest(c, s0, led0, kv) && Mid(c, s0, s, led, kv, pre + s0.running) && pre + s0.running == []
    requires Candidates(s0, ChunkIds(s0, plan), ranked)
    ensures EmptyBatchError(c, s, prefixes, ranked) == PromptTooLong
            || EmptyBatchError(c, s, prefixes, ranked) == NoProgress
  {
    if ranked != [] && c.sameStep {
      assert MidReq(s0, s, pre + s0.running, ranked[0]);
      MatchPrefixSound(c, s.pool, s.reqs, led, ranked[0]);
    }
  }
}
