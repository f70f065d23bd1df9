/** The prefill half of a step: the resumed chunk, then ranked admission, in both modes. */
module Prefill {
  import opened Arith
  import opened Seqs
  import opened Requests
  import opened Pages
  import opened CacheInvariant
  import opened KvMemory
  import opened Growth
  import opened Matching
  import opened Boundary
  import opened Scheduling
  import opened SchedulerState

  /** A request that was given prefill tokens in this step; nothing but its pages and progress changed. */
  ghost predicate Filled(r0: Req, r: Req) {
    && r == r0.(table := r.table, cached := r.cached, newToks := r.newToks, status := Running)
    && r0.cached <= r.cached
    && r.newToks > 0 && r.Context() <= |r.tokens|
  }

  /** Exactly the requests in `pre` have been given tokens since the step began. */
  ghost predicate MidReq(s0: Sys, s: Sys, pre: seq<nat>, id: nat)
    requires id < |s0.reqs| == |s.reqs|
  {
    if id in pre then Filled(s0.reqs[id], s.reqs[id]) else s.reqs[id] == s0.reqs[id]
  }

  ghost predicate MidPlaces(s0: Sys, s: Sys, pre: seq<nat>) {
    && |s.reqs| == |s0.reqs|
    && s.running == s0.running && s.chunked == s0.chunked
    && NoDup(pre)
    && (forall k :: 0 <= k < |pre| ==>
         pre[k] < |s0.reqs| && (pre[k] in s0.waiting || s0.chunked == Some(pre[k]) || pre[k] in s0.running))
    && NoDup(s.waiting)
    && (forall x :: x in s.waiting <==> x in s0.waiting && x !in pre)
    && (forall id: nat {:trigger MidReq(s0, s, pre, id)} :: id < |s0.reqs| ==> MidReq(s0, s, pre, id))
  }

  ghost predicate Mid(c: Config, s0: Sys, s: Sys, led: Ledger, kv: Memory, pre: seq<nat>) {
    && Consistent(c, s.pool, s.reqs, led, kv)
    && |s.pool.pages| == c.numBlocks
    && MidPlaces(s0, s, pre)
  }

  /** Tokens given out so far. */
  function SumNew(reqs: seq<Req>, ids: seq<nat>): nat {
    if ids == [] then 0
    else SumNew(reqs, ids[..|ids| - 1]) + if ids[|ids| - 1] < |reqs| then reqs[ids[|ids| - 1]].newToks else 0
  }

  lemma {:induction false} SumNewFrame(reqs: seq<Req>, reqs': seq<Req>, ids: seq<nat>)
    requires |reqs'| == |reqs|
    requires forall k :: 0 <= k < |ids| && ids[k] < |reqs| ==> reqs'[ids[k]].newToks == reqs[ids[k]].newToks
    ensures SumNew(reqs', ids) == SumNew(reqs, ids)
  {
    if ids != [] {
      SumNewFrame(reqs, reqs', ids[..|ids| - 1]);
    }
  }

  lemma SumNewSnoc(reqs: seq<Req>, id: nat, r: Req, ids: seq<nat>)
    requires id < |reqs| && id !in ids
    ensures SumNew(reqs[id := r], ids + [id]) == SumNew(reqs, ids) + r.newToks
  {
    assert (ids + [id])[..|ids|] == ids;
    SumNewFrame(reqs, reqs[id := r], ids);
  }

  lemma MidStart(c: Config, s: Sys, led: Ledger, kv: Memory)
    requires Nearly(c, s, led, kv)
    ensures Mid(c, s, s, led, kv, [])
  {
    QuiescentIsConsistent(c, s.pool, s.reqs, led, kv);
  }

  /** One more request is filled. */
  lemma MidSnoc(s0: Sys, s: Sys, s': Sys, pre: seq<nat>, id: nat)
    requires MidPlaces(s0, s, pre) && id < |s0.reqs| && id !in pre
    requires id in s0.waiting || s0.chunked == Some(id) || id in s0.running
    requires |s'.reqs| == |s.reqs| && s'.running == s.running && s'.chunked == s.chunked
    requires s'.reqs == s.reqs[id := s'.reqs[id]]
    requires Filled(s0.reqs[id], s'.reqs[id])
    requires NoDup(s'.waiting) && forall x :: x in s'.waiting <==> x in s.waiting && x != id
    ensures MidPlaces(s0, s', pre + [id])
  {
    forall x: nat | x < |s0.reqs|
      ensures MidReq(s0, s', pre + [id], x)
    {
      assert MidReq(s0, s, pre, x);
    }
  }

  // ---------------------------------------------------------------- the resumed chunk

  lemma AppendChunkOk(c: Config, s: Sys, led: Ledger, kv: Memory, plan: ChunkPlan, tokenBudget: nat, freeBudget: nat)
    returns (led': Ledger)
    requires Nearly(c, s, led, kv) && PlanChunk(c, s, tokenBudget, freeBudget) == Ok(plan)
    requires freeBudget <= |s.pool.free|
    ensures AppendChunk(c, s, plan).Ok?
    ensures var s' := AppendChunk(c, s, plan).value;
            && Mid(c, s, s', led', kv, ChunkIds(s, plan))
            && s'.waiting == s.waiting
            && |s'.pool.free| == |s.pool.free| - plan.blocks
            && SumNew(s'.reqs, ChunkIds(s, plan)) == plan.tokens
            && (plan.scheduled ==>
                 s.chunked.Some? && s.chunked.value < |s'.reqs| && s'.reqs[s.chunked.value].newToks == plan.tokens)
    ensures LedgerExtends(led, led')
  {
    led' := led;
    MidStart(c, s, led, kv);
    if plan.scheduled && s.chunked.Some? {
      var id := s.chunked.value;
      assert Placed(s, id) && Progress(s, id);
      led' := MayAppendOk(c, s.pool, s.reqs, led, kv, id, plan.tokens);
      var s' := AppendChunk(c, s, plan).value;
      MidSnoc(s, s, s', [], id);
      assert [] + [id] == [id];
      SumNewSnoc(s.reqs, id, s'.reqs[id], []);
    }
  }

  // ---------------------------------------------------------------- one admission

  ghost predicate AdmitReady(c: Config, s0: Sys, s: Sys, led: Ledger, pre: seq<nat>, id: nat, ids: seq<nat>, n: nat) {
    && id < |s0.reqs| == |s.reqs| && id in s0.waiting && id !in pre
    && s.reqs[id] == s0.reqs[id] && Idle(s.reqs[id]) && s.reqs[id].newToks == 0
    && PlanOk(c, s.pool, led, s.reqs[id], ids)
    && n > 0 && Start(|ids|, c.B) + n <= |s.reqs[id].tokens|
    && RequiredForAdmission(c, s.pool, ids, n) <= |s.pool.free|
  }

  lemma AdmitPages(c: Config, s0: Sys, s: Sys, led: Ledger, kv: Memory, pre: seq<nat>, id: nat, ids: seq<nat>, n: nat)
    returns (led': Ledger)
    requires Mid(c, s0, s, led, kv, pre) && AdmitReady(c, s0, s, led, pre, id, ids, n)
    ensures Admit(c, s, id, ids, n).Ok?
    ensures var s' := Admit(c, s, id, ids, n).value;
            && (exists p: seq<nat> :: s'.reqs == s.reqs[id :=
                                                        s.reqs[id].(table := p, cached := Start(|ids|, c.B),
                                                                    newToks := n, status := Running)])
            && s'.running == s.running && s'.chunked == s.chunked && s'.waiting == Remove(s.waiting, id)
            && |s'.pool.free| == |s.pool.free| - RequiredForAdmission(c, s.pool, ids, n)
            && |s'.pool.pages| == c.numBlocks
            && Consistent(c, s'.pool, s'.reqs, led', kv)
    ensures LedgerExtends(led, led')
  {
    var r := s.reqs[id];
    ClaimPrefixOk(c, s.pool, s.reqs, led, kv, id, ids);
    var v := ClaimPrefix(c, s.pool, r, ids).value;
    var reqs1 := s.reqs[id := v.1];
    led' := AllocateNewOk(c, v.0, reqs1, led, kv, id, n);
    var w := AllocateNew(c, v.0, v.1.(newToks := n)).value;
    assert reqs1[id := w.1] == s.reqs[id := w.1];
    StatusIrrelevantMid(c, w.0, s.reqs[id := w.1], led', kv, id, Running);
    var s' := Admit(c, s, id, ids, n).value;
    assert s'.reqs == s.reqs[id := w.1][id := w.1.(status := Running)];
    assert s'.reqs == s.reqs[id := r.(table := w.1.table, cached := Start(|ids|, c.B), newToks := n,
                                      status := Running)];
  }

  lemma StatusIrrelevantMid(c: Config, pool: Pool, reqs: seq<Req>, led: Ledger, kv: Memory, id: nat, st: Status)
    requires Consistent(c, pool, reqs, led, kv) && id < |reqs|
    ensures Consistent(c, pool, reqs[id := reqs[id].(status := st)], led, kv)
  {
    var r' := reqs[id].(status := st);
    var reqs' := reqs[id := r'];
    assert TableOk(c, pool.pages, led, reqs[id]);
    assert TableReady(c, pool.pages, kv, reqs[id], reqs[id].cached);
    forall i: nat | i < |r'.table|
      ensures EntryOk(c, pool.pages, led, r', i) && EntryReady(c, pool.pages, kv, r', r'.cached, i)
    {
      assert EntryOk(c, pool.pages, led, reqs[id], i);
      assert EntryReady(c, pool.pages, kv, reqs[id], reqs[id].cached, i);
    }
    ProgressWorld(c, pool, reqs, led, id, r');
    forall b: nat | b < |pool.pages|
      ensures PageReady(c, pool, reqs', led, kv, b)
    {
      PageReadyMono(c, pool, reqs, led, kv, id, r', b);
    }
    forall x: nat | x < |reqs'|
      ensures TableReady(c, pool.pages, kv, reqs'[x], reqs'[x].cached) && Aligned(c, pool.pages, reqs'[x])
    {
      assert TableReady(c, pool.pages, kv, reqs[x], reqs[x].cached);
      assert Aligned(c, pool.pages, reqs[x]);
    }
  }

  /** Claiming a plan and allocating the rest succeeds, takes exactly the required pages, and fills one more request. */
  lemma AdmitOk(c: Config, s0: Sys, s: Sys, led: Ledger, kv: Memory, pre: seq<nat>, id: nat, ids: seq<nat>, n: nat)
    returns (led': Ledger)
    requires Mid(c, s0, s, led, kv, pre) && AdmitReady(c, s0, s, led, pre, id, ids, n)
    ensures Admit(c, s, id, ids, n).Ok?
    ensures var s' := Admit(c, s, id, ids, n).value;
            && Mid(c, s0, s', led', kv, pre + [id])
            && s'.waiting == Remove(s.waiting, id)
            && |s'.pool.free| == |s.pool.free| - RequiredForAdmission(c, s.pool, ids, n)
            && s'.reqs[id].newToks == n && s'.reqs[id].Context() == Start(|ids|, c.B) + n
            && s'.reqs[id].tokens == s.reqs[id].tokens
            && (forall x: nat :: x < |s.reqs| && x != id ==> s'.reqs[x] == s.reqs[x])
            && SumNew(s'.reqs, pre + [id]) == SumNew(s.reqs, pre) + n
    ensures LedgerExtends(led, led')
  {
    led' := AdmitPages(c, s0, s, led, kv, pre, id, ids, n);
    var s' := Admit(c, s, id, ids, n).value;
    RemoveSound(s.waiting, id);
    MidSnoc(s0, s, s', pre, id);
    SumNewSnoc(s.reqs, id, s'.reqs[id], pre);
    assert s'.reqs == s.reqs[id := s'.reqs[id]];
  }

  // ---------------------------------------------------------------- same-step admission

  function RemoveAll(s: seq<nat>, xs: seq<nat>): seq<nat>
    decreases |xs|
  {
    if xs == [] then s else RemoveAll(Remove(s, xs[0]), xs[1..])
  }

  /** The candidates: distinct waiting requests that hold nothing yet. */
  ghost predicate Candidates(s0: Sys, pre: seq<nat>, ranked: seq<nat>) {
    && NoDup(ranked)
    && forall k :: 0 <= k < |ranked| ==>
         && ranked[k] < |s0.reqs| && ranked[k] in s0.waiting && ranked[k] !in pre
         && Idle(s0.reqs[ranked[k]]) && s0.reqs[ranked[k]].newToks == 0
  }

  ghost predicate Complete(s: Sys, id: nat) {
    id < |s.reqs| && s.reqs[id].Context() == |s.reqs[id].tokens|
  }

  /** The first `m` candidates, in rank order and without bypass, were admitted; all but the last are complete. */
  ghost predicate AdmittedPrefix(c: Config, s: Sys, s': Sys, pre: seq<nat>, ranked: seq<nat>, m: nat, budget: nat) {
    && m <= |ranked|
    && |s'.reqs| == |s.reqs|
    && s'.waiting == RemoveAll(s.waiting, ranked[..m])
    && (forall x: nat :: x < |s.reqs| && x !in ranked[..m] ==> s'.reqs[x] == s.reqs[x])
    && (forall k :: 0 <= k < m - 1 ==> Complete(s', ranked[k]))
    && (!c.chunked ==> forall k :: 0 <= k < m ==> Complete(s', ranked[k]))
    && SumNew(s'.reqs, pre + ranked[..m]) <= SumNew(s.reqs, pre) + budget
  }

  lemma AdmittedNone(c: Config, s: Sys, pre: seq<nat>, ranked: seq<nat>, budget: nat)
    ensures AdmittedPrefix(c, s, s, pre, ranked, 0, budget)
  {
    assert pre + ranked[..0] == pre;
  }

  lemma AdmittedOne(c: Config, s: Sys, s1: Sys, pre: seq<nat>, ranked: seq<nat>, n: nat, budget: nat)
    requires ranked != [] && |s1.reqs| == |s.reqs| && n <= budget
    requires s1.waiting == Remove(s.waiting, ranked[0])
    requires forall x: nat :: x < |s.reqs| && x != ranked[0] ==> s1.reqs[x] == s.reqs[x]
    requires !c.chunked ==> Complete(s1, ranked[0])
    requires SumNew(s1.reqs, pre + [ranked[0]]) == SumNew(s.reqs, pre) + n
    ensures AdmittedPrefix(c, s, s1, pre, ranked, 1, budget)
  {
    assert ranked[..1] == [ranked[0]];
    assert ranked[..1][1..] == [];
  }

  lemma AdmittedMore(c: Config, s: Sys, s1: Sys, s2: Sys, pre: seq<nat>, ranked: seq<nat>, n: nat, budget: nat, m: nat)
    requires ranked != [] && ranked[0] !in ranked[1..] && |s1.reqs| == |s.reqs| && n <= budget
    requires s1.waiting == Remove(s.waiting, ranked[0])
    requires forall x: nat :: x < |s.reqs| && x != ranked[0] ==> s1.reqs[x] == s.reqs[x]
    requires Complete(s1, ranked[0])
    requires SumNew(s1.reqs, pre + [ranked[0]]) == SumNew(s.reqs, pre) + n
    requires AdmittedPrefix(c, s1, s2, pre + [ranked[0]], ranked[1..], m, budget - n)
    ensures AdmittedPrefix(c, s, s2, pre, ranked, m + 1, budget)
  {
    hide SumNew, Remove, Req.Context;
    var rest := ranked[1..];
    assert ranked[..m + 1] == [ranked[0]] + rest[..m];
    assert pre + ranked[..m + 1] == pre + [ranked[0]] + rest[..m];
    assert ranked[..m + 1][1..] == rest[..m];
    assert s2.reqs[ranked[0]] == s1.reqs[ranked[0]];
    forall k | 0 <= k < m + 1 && (k < m || !c.chunked)
      ensures Complete(s2, ranked[k])
    {
      if k > 0 {
        assert Complete(s2, rest[k - 1]);
      }
    }
  }

  /** The first round of the loop when it admits: what `Admit` needs holds. */
  lemma CommitReady(c: Config, s0: Sys, s: Sys, led: Ledger, kv: Memory, pre: seq<nat>, ranked: seq<nat>)
    requires Mid(c, s0, s, led, kv, pre) && Candidates(s0, pre, ranked) && ranked != []
    requires forall id: nat :: id < |s0.reqs| ==> ReqLimits(c, s0.reqs[id])
    ensures ranked[0] < |s.reqs| && s.reqs[ranked[0]] == s0.reqs[ranked[0]]
    ensures var r := s.reqs[ranked[0]];
            var latest := MatchPrefix(c, s.pool, r);
            && latest.Ok? && PlanOk(c, s.pool, led, r, latest.value)
            && Start(|latest.value|, c.B) < |r.tokens|
  {
    var id := ranked[0];
    assert MidReq(s0, s, pre, id);
    assert ReqLimits(c, s0.reqs[id]);
    MatchPrefixSound(c, s.pool, s.reqs, led, id);
    PlanLeavesToken(c, s.pool, led, s.reqs[id], MatchPrefix(c, s.pool, s.reqs[id]).value);
  }

  /** A plan never covers the last block, so a token is always left to compute. */
  lemma PlanLeavesToken(c: Config, pool: Pool, led: Ledger, r: Req, ids: seq<nat>)
    requires PlanOk(c, pool, led, r, ids) && Idle(r) && |r.tokens| >= 1
    ensures Start(|ids|, c.B) < |r.tokens|
  {
    if ids != [] {
      assert PlanEntry(c, pool, led, r, ids, |ids| - 1);
      CeilBounds(|r.tokens|, c.B);
      StartMono(|ids|, r.NumBlocks(c.B) - 1, c.B);
    }
  }

  /** What the loop returns: the first `m` candidates are in, the reservation for decode is intact. */
  ghost predicate CommitOutcome(c: Config, s0: Sys, s: Sys, led: Ledger, led': Ledger, kv: Memory, pre: seq<nat>,
                                ranked: seq<nat>,
                                budget: nat, reserved: nat, active: nat, committed: seq<nat>, m: nat,
                                    res: Result<(Sys, seq<nat>)>) {
    && res.Ok?
    && AdmittedPrefix(c, s, res.value.0, pre, ranked, m, budget)
    && res.value.1 == committed + ranked[..m]
    && Mid(c, s0, res.value.0, led', kv, pre + ranked[..m])
    && reserved <= |res.value.0.pool.free|
    && (m > 0 ==> active + |committed| + m <= c.maxSeqs)
    && LedgerExtends(led, led')
  }

  lemma CommitUnfold(c: Config, s: Sys, ranked: seq<nat>, budget: nat, reserved: nat, active: nat, committed: seq<nat>,
                     latest: seq<nat>, n: nat)
    requires ranked != [] && active + |committed| < c.maxSeqs
    requires MatchPrefix(c, s.pool, s.Get(ranked[0])) == Ok(latest) && s.Get(ranked[0]).cached == 0
    requires 0 < n == Min(|s.Get(ranked[0]).tokens| - Start(|latest|, c.B), budget)
    requires c.chunked || n == |s.Get(ranked[0]).tokens| - Start(|latest|, c.B)
    requires reserved <= |s.pool.free| && RequiredForAdmission(c, s.pool, latest, n) <= |s.pool.free| - reserved
    requires Admit(c, s, ranked[0], latest, n).Ok?
    ensures var s1 := Admit(c, s, ranked[0], latest, n).value;
            CommitSameStep(c, s, ranked, budget, reserved, active, committed) ==
            if n < |s.Get(ranked[0]).tokens| - Start(|latest|, c.B) then Ok((s1, committed + [ranked[0]]))
            else CommitSameStep(c, s1, ranked[1..], budget - n, reserved, active, committed + [ranked[0]])
  {
    hide Admit, MatchPrefix, RequiredForAdmission;
  }

  lemma {:induction false} CommitOk(c: Config, s0: Sys, s: Sys, led: Ledger, kv: Memory, pre: seq<nat>,
                                    ranked: seq<nat>,
                                    budget: nat, reserved: nat, active: nat, committed: seq<nat>)
    returns (led': Ledger, m: nat)
    requires Mid(c, s0, s, led, kv, pre) && Candidates(s0, pre, ranked)
    requires forall id: nat :: id < |s0.reqs| ==> ReqLimits(c, s0.reqs[id])
    requires reserved <= |s.pool.free|
    ensures CommitOutcome(c, s0, s, led, led', kv, pre, ranked, budget, reserved, active, committed, m,
                          CommitSameStep(c, s, ranked, budget, reserved, active, committed))
    decreases |ranked|
  {
    hide Admit, MatchPrefix, Consistent, PlanOk;
    led', m := led, 0;
    AdmittedNone(c, s, pre, ranked, budget);
    assert pre + ranked[..0] == pre && committed + ranked[..0] == committed;
    if ranked != [] && active + |committed| < c.maxSeqs {
      CommitReady(c, s0, s, led, kv, pre, ranked);
      var id := ranked[0];
      var latest := MatchPrefix(c, s.pool, s.reqs[id]).value;
      var remaining := |s.reqs[id].tokens| - Start(|latest|, c.B);
      var n := Min(remaining, budget);
      if (c.chunked || remaining <= budget) && n > 0 && RequiredForAdmission(c, s.pool, latest, n)
          <= |s.pool.free| - reserved {
        led', m := CommitRound(c, s0, s, led, kv, pre, ranked, budget, reserved, active, committed, latest, n);
      }
    }
  }

  /** A round that admits: alone if the tokens ran out, and otherwise followed by the rest of the loop. */
  lemma {:induction false} CommitRound(c: Config, s0: Sys, s: Sys, led: Ledger, kv: Memory, pre: seq<nat>,
                                       ranked: seq<nat>,
                                       budget: nat, reserved: nat, active: nat, committed: seq<nat>, latest: seq<nat>,
                                           n: nat)
    returns (led': Ledger, m: nat)
    requires Mid(c, s0, s, led, kv, pre) && Candidates(s0, pre, ranked) && ranked != []
    requires forall id: nat :: id < |s0.reqs| ==> ReqLimits(c, s0.reqs[id])
    requires active + |committed| < c.maxSeqs
    requires AdmitReady(c, s0, s, led, pre, ranked[0], latest, n)
    requires MatchPrefix(c, s.pool, s.reqs[ranked[0]]) == Ok(latest)
    requires n == Min(|s.reqs[ranked[0]].tokens| - Start(|latest|, c.B), budget)
    requires c.chunked || n == |s.reqs[ranked[0]].tokens| - Start(|latest|, c.B)
    requires reserved <= |s.pool.free| && RequiredForAdmission(c, s.pool, latest, n) <= |s.pool.free| - reserved
    ensures m > 0
    ensures CommitOutcome(c, s0, s, led, led', kv, pre, ranked, budget, reserved, active, committed, m,
                          CommitSameStep(c, s, ranked, budget, reserved, active, committed))
    decreases |ranked|, 0
  {
    hide Admit, MatchPrefix, RequiredForAdmission, Consistent, PlanOk, CommitSameStep, AdmittedPrefix, SumNew,
         RemoveAll;
    var id := ranked[0];
    var led1 := AdmitOk(c, s0, s, led, kv, pre, id, latest, n);
    var s1 := Admit(c, s, id, latest, n).value;
    CommitUnfold(c, s, ranked, budget, reserved, active, committed, latest, n);
    if n < |s.reqs[id].tokens| - Start(|latest|, c.B) {
      led', m := led1, 1;
      AdmittedOne(c, s, s1, pre, ranked, n, budget);
      assert ranked[..1] == [id];
    } else {
      assert Candidates(s0, pre + [id], ranked[1..]);
      led', m := CommitOk(c, s0, s1, led1, kv, pre + [id], ranked[1..], budget - n, reserved, active, committed + [id]);
      CommitExtend(c, s0, s, s1, led, led1, led', kv, pre, ranked, budget, reserved, active, committed, n, m,
                   CommitSameStep(c, s1, ranked[1..], budget - n, reserved, active, committed + [id]));
      m := m + 1;
    }
  }

  lemma AdmittedBound(c: Config, s: Sys, s': Sys, pre: seq<nat>, ranked: seq<nat>, m: nat, budget: nat)
    requires AdmittedPrefix(c, s, s', pre, ranked, m, budget)
    ensures m <= |ranked|
  {
  }

  lemma CommitExtend(c: Config, s0: Sys, s: Sys, s1: Sys, led: Ledger, led1: Ledger, led': Ledger, kv: Memory,
                     pre: seq<nat>, ranked: seq<nat>,
                     budget: nat, reserved: nat, active: nat, committed: seq<nat>, n: nat, m: nat,
                         res: Result<(Sys, seq<nat>)>)
    requires ranked != [] && ranked[0] !in ranked[1..] && |s1.reqs| == |s.reqs| && n <= budget
    requires s1.waiting == Remove(s.waiting, ranked[0]) && active + |committed| < c.maxSeqs
    requires forall x: nat :: x < |s.reqs| && x != ranked[0] ==> s1.reqs[x] == s.reqs[x]
    requires Complete(s1, ranked[0])
    requires SumNew(s1.reqs, pre + [ranked[0]]) == SumNew(s.reqs, pre) + n
    requires LedgerExtends(led, led1)
    requires CommitOutcome(c, s0, s1, led1, led', kv, pre + [ranked[0]], ranked[1..], budget - n, reserved, active,
                           committed + [ranked[0]], m, res)
    ensures CommitOutcome(c, s0, s, led, led', kv, pre, ranked, budget, reserved, active, committed, m + 1, res)
  {
    hide Mid, AdmittedPrefix, SumNew, Remove, Complete, LedgerExtends;
    LedgerTrans(led, led1, led');
    AdmittedBound(c, s1, res.value.0, pre + [ranked[0]], ranked[1..], m, budget - n);
    AdmittedMore(c, s, s1, res.value.0, pre, ranked, n, budget, m);
    assert ranked[..m + 1] == [ranked[0]] + ranked[1..][..m];
    assert pre + [ranked[0]] + ranked[1..][..m] == pre + ranked[..m + 1];
    assert committed + [ranked[0]] + ranked[1..][..m] == committed + ranked[..m + 1];
  }
}
