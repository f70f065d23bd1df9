/** What separates the two admission modes: with same-step reuse a request finds the pages that the one admitted just
    before it published in this very step; a frozen plan knows only what was there before. */
module Reuse {
  import opened Arith
  import opened Requests
  import opened Pages
  import opened CacheInvariant
  import opened KvMemory
  import opened Growth
  import opened Matching
  import opened Scheduling
  import opened SchedulerState
  import opened Prefill
  import opened Frozen
  import opened Steps
  import opened Policy
  import opened Maximal
  import opened Ownership

  /** The first `m` blocks of `x` are those of `y`, who has computed them and hashes no two of its full blocks alike up
      to there; and `x` has a token behind them. */
  ghost predicate Shares(c: Config, y: Req, x: Req, m: nat) {
    && Start(m, c.B) <= y.Context() <= |y.tokens| && Start(m, c.B) < |x.tokens|
    && x.tokens[..Start(m, c.B)] == y.tokens[..Start(m, c.B)]
    && m <= FirstRepeat(c, y.tokens, Full(c, y))
  }

  /** The pages of `y` are a chain of prefixes of `x`. */
  lemma SharedChain(c: Config, pool: Pool, reqs: seq<Req>, led: Ledger, kv: Memory, y: nat, x: nat, m: nat)
    requires Consistent(c, pool, reqs, led, kv) && y < |reqs| && x < |reqs| && reqs[x].table == []
    requires Shares(c, reqs[y], reqs[x], m)
    ensures m <= |reqs[y].table| && ChainOk(c, pool.pages, led, reqs[x], reqs[y].table[..m])
  {
    hide SharesOk, RefsOk, KeysOk, Shares, FirstRepeat;
    SharesFacts(c, reqs[y], reqs[x], m);
    var r := reqs[y];
    assert TableOk(c, pool.pages, led, reqs[y]) && Aligned(c, pool.pages, reqs[y]);
    var t := r.table[..m];
    forall k: nat | k < m
      ensures ChainEntry(c, pool.pages, led, reqs[x], t, k)
    {
      assert EntryOk(c, pool.pages, led, r, k);
      StartMono(k + 1, m, c.B);
      if k > 0 { assert t[..k][k - 1] == r.table[k - 1]; }
      assert reqs[x].tokens[..Start(k + 1, c.B)] == reqs[x].tokens[..Start(m, c.B)][..Start(k + 1, c.B)];
      assert r.tokens[..Start(k + 1, c.B)] == r.tokens[..Start(m, c.B)][..Start(k + 1, c.B)];
    }
  }

  lemma SharesFacts(c: Config, y: Req, x: Req, m: nat)
    requires Shares(c, y, x, m)
    ensures Start(m, c.B) <= y.Context() <= |y.tokens| && Start(m, c.B) < |x.tokens|
    ensures x.tokens[..Start(m, c.B)] == y.tokens[..Start(m, c.B)]
    ensures m <= Ceil(y.Context(), c.B)
  {
    CeilMono(Start(m, c.B), y.Context(), c.B);
    CeilSplit(m, 0, c.B);
    CeilBounds(0, c.B);
  }

  /** Whoever owns the hashes of his pages lets others find them. */
  lemma SharedFound(c: Config, s: Sys, led: Ledger, kv: Memory, y: nat, x: nat, m: nat)
    requires Consistent(c, s.pool, s.reqs, led, kv) && y < |s.reqs| && x < |s.reqs|
    requires s.reqs[x].table == [] && Settled(c, s.reqs[x])
    requires OwnsLast(c, s.pool, s.reqs[y], Full(c, s.reqs[y])) && Shares(c, s.reqs[y], s.reqs[x], m)
    ensures MatchPrefix(c, s.pool, s.Get(x)).Ok? && m <= |Cached(c, s, x)|
  {
    hide Consistent, MatchPrefix, ChainOk, BlockName, LastIn, PlanOk, World;
    var ry, rx := s.reqs[y], s.reqs[x];
    WorldOf(c, s.pool, s.reqs, led, kv);
    SharedChain(c, s.pool, s.reqs, led, kv, y, x, m);
    RepeatFromIs(c, ry.tokens, Full(c, ry), 0);
    var t := ry.table[..m];
    forall k: nat | k < m
      ensures BlockName(c, rx.tokens, k) in s.pool.owner && s.pool.owner[BlockName(c, rx.tokens, k)] == t[k]
    {
      assert LastIn(c, ry.tokens, Full(c, ry), k);
      assert Owns(c, s.pool, ry, k);
      StartMono(k + 1, m, c.B);
      PrefixNames(c, rx.tokens[..Start(m, c.B)], rx.tokens, k);
      PrefixNames(c, ry.tokens[..Start(m, c.B)], ry.tokens, k);
    }
    ChainToPlan(c, s.pool, s.reqs, led, x, t, m);
    assert t[..m] == t;
    MatchPrefixLongest(c, s.pool, s.reqs, led, x, t);
    assert t <= MatchPrefix(c, s.pool, rx).value;
  }

  // ---------------------------------------------------------------- in the loop

  lemma CommitLeaves(c: Config, s0: Sys, s: Sys, led: Ledger, kv: Memory, pre: seq<nat>, ranked: seq<nat>, budget: nat,
                     reserved: nat, active: nat, committed: seq<nat>, z: nat)
    requires Mid(c, s0, s, led, kv, pre) && Candidates(s0, pre, ranked)
    requires forall id: nat :: id < |s0.reqs| ==> ReqLimits(c, s0.reqs[id])
    requires reserved <= |s.pool.free| && z < |s.reqs| && z !in ranked
    ensures var res := CommitSameStep(c, s, ranked, budget, reserved, active, committed);
            res.Ok? && z < |res.value.0.reqs| && res.value.0.reqs[z] == s.reqs[z]
  {
    hide Mid, Candidates, CommitSameStep, SumNew, RemoveAll, Complete;
    var led', m := CommitOk(c, s0, s, led, kv, pre, ranked, budget, reserved, active, committed);
  }

  lemma CommitPlaces(c: Config, s0: Sys, s: Sys, led: Ledger, kv: Memory, pre: seq<nat>, ranked: seq<nat>, budget: nat,
                     reserved: nat, active: nat, committed: seq<nat>, i: nat)
    requires Mid(c, s0, s, led, kv, pre) && Candidates(s0, pre, ranked) && i < |ranked|
    requires forall id: nat :: id < |s0.reqs| ==> ReqLimits(c, s0.reqs[id])
    requires reserved <= |s.pool.free|
    ensures var res := CommitSameStep(c, s, ranked, budget, reserved, active, committed);
            res.Ok? && ranked[i] < |s0.reqs| == |s.reqs| == |res.value.0.reqs|
  {
    hide Mid, CommitSameStep, SumNew, RemoveAll, Complete;
    MidLengths(c, s0, s, led, kv, pre);
    var led', m := CommitOk(c, s0, s, led, kv, pre, ranked, budget, reserved, active, committed);
  }

  lemma SharesSame(c: Config, y: Req, y': Req, x: Req, x': Req, m: nat)
    requires Shares(c, y', x', m) && y' == y && x'.tokens == x.tokens
    ensures Shares(c, y, x, m)
  {
  }

  lemma MidConsistent(c: Config, s0: Sys, s: Sys, led: Ledger, kv: Memory, pre: seq<nat>, x: nat)
    requires Mid(c, s0, s, led, kv, pre) && x < |s0.reqs| && x !in pre
    ensures Consistent(c, s.pool, s.reqs, led, kv) && |s.reqs| == |s0.reqs| && s.reqs[x] == s0.reqs[x]
  {
    hide Consistent;
    assert MidReq(s0, s, pre, x);
  }

  lemma AdmittedOwns(c: Config, s0: Sys, s: Sys, led: Ledger, kv: Memory, pre: seq<nat>, id: nat, ids: seq<nat>, n: nat)
    requires Mid(c, s0, s, led, kv, pre) && AdmitReady(c, s0, s, led, pre, id, ids, n) && Admit(c, s, id, ids, n).Ok?
    ensures var s1 := Admit(c, s, id, ids, n).value;
            id < |s.reqs| == |s1.reqs| && OwnsLast(c, s1.pool, s1.reqs[id], Full(c, s1.reqs[id]))
  {
    hide Mid, PlanOk, Admit, OwnsLast, Consistent, RequiredForAdmission;
    MidConsistent(c, s0, s, led, kv, pre, id);
    AdmitOwns(c, s, led, kv, id, ids, n);
  }

  /** The first of the loop, with somebody in the state who owns the hashes of his pages. */
  lemma NextTakes(c: Config, s0: Sys, s: Sys, led: Ledger, kv: Memory, pre: seq<nat>, ranked: seq<nat>, budget: nat,
                  reserved: nat, active: nat, committed: seq<nat>, y: nat, m: nat)
    requires Mid(c, s0, s, led, kv, pre) && Candidates(s0, pre, ranked) && ranked != []
    requires forall id: nat :: id < |s0.reqs| ==> ReqLimits(c, s0.reqs[id])
    requires reserved <= |s.pool.free| && y < |s.reqs| && y !in ranked
    requires OwnsLast(c, s.pool, s.reqs[y], Full(c, s.reqs[y]))
    ensures var res := CommitSameStep(c, s, ranked, budget, reserved, active, committed);
            && res.Ok? && y < |res.value.0.reqs| && ranked[0] < |res.value.0.reqs|
            && (|committed| < |res.value.1| && Shares(c, res.value.0.reqs[y], res.value.0.reqs[ranked[0]], m) ==>
                  Start(m, c.B) <= res.value.0.reqs[ranked[0]].cached)
  {
    hide Mid, Decide, Admit, RefusedNow, SumNew, Complete, CommitSameStep, RequiredForAdmission, Cached, Shares,
         OwnsLast,
         PlanOk, Consistent;
    var x := ranked[0];
    CommitUnfolds(c, s, ranked, budget, reserved, active, committed);
    CommitPlaces(c, s0, s, led, kv, pre, ranked, budget, reserved, active, committed, 0);
    CommitLeaves(c, s0, s, led, kv, pre, ranked, budget, reserved, active, committed, y);
    var res := CommitSameStep(c, s, ranked, budget, reserved, active, committed).value;
    if active + |committed| < c.maxSeqs {
      DecideIs(c, s0, s, led, kv, pre, ranked, budget, reserved);
      var d := Decide(c, s, x, budget, reserved).value;
      if d.Take? {
        var led1 := AdmitOk(c, s0, s, led, kv, pre, x, d.blocks, d.tokens);
        var s1 := Admit(c, s, x, d.blocks, d.tokens).value;
        MidLengths(c, s0, s1, led1, kv, pre + [x]);
        if !d.partial {
          CandidatesTail(s0, pre, ranked);
          CommitLeaves(c, s0, s1, led1, kv, pre + [x], ranked[1..], budget - d.tokens, reserved, active,
                       committed + [x], x);
        }
        assert res.0.reqs[x] == s1.reqs[x];
        if Shares(c, res.0.reqs[y], res.0.reqs[x], m) {
          MidConsistent(c, s0, s, led, kv, pre, x);
          SharesSame(c, s.reqs[y], res.0.reqs[y], s.reqs[x], res.0.reqs[x], m);
          SharedFound(c, s, led, kv, y, x, m);
          StartMono(m, |d.blocks|, c.B);
        }
      }
    }
  }

  /** Of two requests admitted one behind the other, the second finds what the first has published. */
  lemma {:induction false} CommitSees(c: Config, s0: Sys, s: Sys, led: Ledger, kv: Memory, pre: seq<nat>,
                                      ranked: seq<nat>, budget: nat, reserved: nat, active: nat, committed: seq<nat>,
                                      i: nat, m: nat)
    requires Mid(c, s0, s, led, kv, pre) && Candidates(s0, pre, ranked)
    requires forall id: nat :: id < |s0.reqs| ==> ReqLimits(c, s0.reqs[id])
    requires reserved <= |s.pool.free| && i + 1 < |ranked|
    ensures var res := CommitSameStep(c, s, ranked, budget, reserved, active, committed);
            && res.Ok? && ranked[i] < |res.value.0.reqs| && ranked[i + 1] < |res.value.0.reqs|
            && (i + 1 < |res.value.1| - |committed|
                && Shares(c, res.value.0.reqs[ranked[i]], res.value.0.reqs[ranked[i + 1]], m) ==>
                  Start(m, c.B) <= res.value.0.reqs[ranked[i + 1]].cached)
    decreases |ranked|
  {
    hide Mid, Candidates, Decide, Admit, AdmitReady, RefusedNow, SumNew, Complete, CommitSameStep, RequiredForAdmission,
         Cached, Shares, CommitStopsAt;
    CommitUnfolds(c, s, ranked, budget, reserved, active, committed);
    CommitMaximal(c, s0, s, led, kv, pre, ranked, budget, reserved, active, committed);
    CommitPlaces(c, s0, s, led, kv, pre, ranked, budget, reserved, active, committed, i);
    CommitPlaces(c, s0, s, led, kv, pre, ranked, budget, reserved, active, committed, i + 1);
    if active + |committed| < c.maxSeqs {
      var id := ranked[0];
      DecideIs(c, s0, s, led, kv, pre, ranked, budget, reserved);
      var d := Decide(c, s, id, budget, reserved).value;
      if d.Take? {
        var led1 := AdmitOk(c, s0, s, led, kv, pre, id, d.blocks, d.tokens);
        var s1 := Admit(c, s, id, d.blocks, d.tokens).value;
        if d.partial {
          return;
        }
        CandidatesTail(s0, pre, ranked);
        if i > 0 {
          CommitSees(c, s0, s1, led1, kv, pre + [id], ranked[1..], budget - d.tokens, reserved, active,
                     committed + [id], i - 1, m);
        } else {
          AdmittedOwns(c, s0, s, led, kv, pre, id, d.blocks, d.tokens);
          NextTakes(c, s0, s1, led1, kv, pre + [id], ranked[1..], budget - d.tokens, reserved, active,
                    committed + [id], id, m);
        }
      }
    }
  }

  // ---------------------------------------------------------------- in the batch

  /** With same-step reuse, in the batch: of two requests admitted one behind the other, the second starts behind all
      the blocks that the first has published in this step and that they share. */
  lemma SameStepSees(c: Config, s: Sys, led: Ledger, kv: Memory, i: nat, m: nat)
    requires AtRest(c, s, led, kv) && DecodeFits(c, s) && ScheduleFrom(c, s).Ok? && c.sameStep
    requires var b := ScheduleFrom(c, s).value;
             && i + 1 < b.numPrefill <= |b.seqs| && b.seqs[i] in s.waiting
             && Shares(c, b.sys.Get(b.seqs[i]), b.sys.Get(b.seqs[i + 1]), m)
    ensures var b := ScheduleFrom(c, s).value;
            Start(m, c.B) <= b.sys.Get(b.seqs[i + 1]).cached
  {
    hide AtRest, Nearly, DecodeFits, ScheduleFrom, PlanStep, AppendChunk, CommitSameStep, Mid, Candidates, PlanChunk,
         RankedWaiting, SumAppend, Shares, SumNew;
    var k := BatchOf(c, s, led, kv);
    var b, p := ScheduleFrom(c, s).value, PlanStep(c, s).value;
    var j := i - |ChunkIds(s, p.chunk)|;
    RestIsSteppable(c, s, led, kv);
    PlanStepOk(c, s, led, kv);
    StepBudgets(c, s, p);
    RankedWaitingOk(c, s, led, kv, p.chunk);
    RestLimits(c, s, led, kv);
    PlanChunkOk(c, s, led, kv, c.maxBatch - |s.running|, |s.pool.free| - p.reserved);
    ChunkApartFromRest(c, s, led, kv, p);
    var led1 := AppendChunkOk(c, s, led, kv, p.chunk, c.maxBatch - |s.running|, |s.pool.free| - p.reserved);
    var s1 := AppendChunk(c, s, p.chunk).value;
    CommitSees(c, s, s1, led1, kv, ChunkIds(s, p.chunk), p.ranked, p.chunk.tokenBudget, p.reserved, s.Live(), [], j, m);
    RankedWaits(c, s, led, kv, p.chunk);
    assert p.ranked[j] == b.seqs[i] && p.ranked[j + 1] == b.seqs[i + 1];
  }

  lemma RankedWaits(c: Config, s: Sys, led: Ledger, kv: Memory, plan: ChunkPlan)
    requires Nearly(c, s, led, kv)
    ensures RankedWaiting(c, s, plan).Ok?
    ensures forall k ::
              0 <= k < |RankedWaiting(c, s, plan).value.1| ==> RankedWaiting(c, s, plan).value.1[k] in s.waiting
  {
    hide Nearly, RankedWaiting;
    RankedWaitingOk(c, s, led, kv, plan);
  }

  // ---------------------------------------------------------------- the frozen plan knows only what was there

  lemma {:induction false} GrowKeepsCached(c: Config, pool: Pool, r: Req, end: nat)
    ensures Grow(c, pool, r, end).Ok? ==> Grow(c, pool, r, end).value.1.cached == r.cached
    decreases end - r.Context()
  {
    hide Publish, BlockHash, LineageOf, TakeFront;
    if r.Context() < end && GrowStep(c, pool, r, end).Ok? {
      var step := GrowStep(c, pool, r, end).value;
      DivStart(r.Context(), c.B);
      GrowKeepsCached(c, step.0, step.1, end);
    }
  }

  lemma {:induction false} AllocateKeepsCached(c: Config, s: Sys, adm: seq<Admission>, x: nat)
    ensures AllocateAdmitted(c, s, adm).Ok? ==> AllocateAdmitted(c, s, adm).value.Get(x).cached == s.Get(x).cached
    decreases |adm|
  {
    hide Grow;
    if adm != [] {
      var a := adm[0];
      var r := s.Get(a.id);
      if r.cached < a.end {
        GrowKeepsCached(c, s.pool, r.(newToks := a.end - r.cached).(newToks := 0), a.end);
        var s1 := AllocateStep(c, s, a.id, a.end - r.cached);
        if s1.Ok? { AllocateKeepsCached(c, s1.value, adm[1..], x); }
      }
    }
  }

  lemma ChunkKeeps(c: Config, s: Sys, plan: ChunkPlan, x: nat)
    requires s.chunked != Some(x)
    ensures AppendChunk(c, s, plan).Ok? ==> AppendChunk(c, s, plan).value.Get(x) == s.Get(x)
  {
    hide MayAppend;
  }

  lemma FrozenClaimed(c: Config, s: Sys, led: Ledger, kv: Memory, p: StepPlan, adm: seq<Admission>, j: nat)
    requires AtRest(c, s, led, kv) && PlanStep(c, s) == Ok(p) && j < |adm| <= |p.ranked|
    requires Ids(adm) == p.ranked[..|adm|]
    requires FrozenPlan(c, s, led, p.ranked, adm, p.chunk.tokenBudget, p.chunk.freeBudget, s.Live())
    requires PlannedAsFound(p.prefixes, adm)
    ensures ClaimAdmitted(c, s, adm).Ok? && adm[j].id < |s.reqs|
    ensures var s1 := ClaimAdmitted(c, s, adm).value;
            s1.chunked == s.chunked && s1.Get(adm[j].id).cached == Start(|Cached(c, s, adm[j].id)|, c.B)
  {
    hide AtRest, Nearly, PlanFrozen, ClaimAdmitted, FrozenPlan, RankedWaiting, Ranked, Cached, Candidates, Consistent,
         PlanChunk, SumAppend, Snapshot;
    RestIsSteppable(c, s, led, kv);
    RankingIs(c, s, led, kv, p.chunk);
    RankedWaitingOk(c, s, led, kv, p.chunk);
    FrozenClaimsOk(c, s, led, kv, p.chunk, p.ranked, adm, p.chunk.tokenBudget, p.chunk.freeBudget);
    assert Todo(c, s, ClaimAdmitted(c, s, adm).value, [], adm[j]);
    assert Ids(adm)[j] == adm[j].id && adm[j].id in p.ranked;
  }

  /** With the frozen plan, in the batch: every admitted request starts exactly behind the pages that a lookup finds
      before the step. */
  lemma FrozenSees(c: Config, s: Sys, led: Ledger, kv: Memory, i: nat)
    requires AtRest(c, s, led, kv) && DecodeFits(c, s) && ScheduleFrom(c, s).Ok? && !c.sameStep
    requires var b := ScheduleFrom(c, s).value;
             i < b.numPrefill <= |b.seqs| && b.seqs[i] in s.waiting
    ensures var b := ScheduleFrom(c, s).value;
            b.sys.Get(b.seqs[i]).cached == Start(|Cached(c, s, b.seqs[i])|, c.B)
  {
    hide AtRest, Nearly, DecodeFits, ScheduleFrom, PlanStep, AppendChunk, PlanFrozen, ClaimAdmitted, AllocateAdmitted,
         FrozenPlan, FrozenStops, PlannedAsFound, RankedWaiting, Ranked, Looked, Cached, Candidates, HalfWay;
    var k := BatchOf(c, s, led, kv);
    var b, p := ScheduleFrom(c, s).value, PlanStep(c, s).value;
    var j := i - |ChunkIds(s, p.chunk)|;
    RestIsSteppable(c, s, led, kv);
    FrozenMaximal(c, s, led, kv);
    ChunkApartFromRest(c, s, led, kv, p);
    RankedWaits(c, s, led, kv, p.chunk);
    var adm := PlanFrozen(c, s, p.prefixes, p.ranked, p.chunk.tokenBudget, p.chunk.freeBudget, {}, s.Live(), []).value;
    var s1 := ClaimAdmitted(c, s, adm).value;
    var s2 := AppendChunk(c, s1, p.chunk).value;
    var x := b.seqs[i];
    assert Ids(adm)[j] == adm[j].id;
    FrozenClaimed(c, s, led, kv, p, adm, j);
    ChunkKeeps(c, s1, p.chunk, x);
    AllocateKeepsCached(c, s2, adm, x);
  }
}
