/** The frozen-plan mode: all admissions are decided on a snapshot, all prefixes claimed, then pages allocated. */
module Frozen {
  import opened Arith
  import opened Seqs
  import opened Requests
  import opened Pages
  import opened CacheInvariant
  import opened KvMemory
  import opened Growth
  import opened Matching
  import opened Scheduling
  import opened SchedulerState
  import opened Prefill

  /** Cached-free pages that the admissions will claim, shared ones counted once. */
  function ProtectedBy(pool: Pool, adm: seq<Admission>): set<nat> {
    if adm == [] then {} else FreeAmong(pool, adm[0].blocks) + ProtectedBy(pool, adm[1..])
  }

  function NewTokens(c: Config, a: Admission): nat {
    Max(a.end - Start(|a.blocks|, c.B), 0)
  }

  /** Pages the admissions will allocate. */
  function NewPages(c: Config, adm: seq<Admission>): nat {
    if adm == [] then 0 else Ceil(NewTokens(c, adm[0]), c.B) + NewPages(c, adm[1..])
  }

  function SumTokens(c: Config, adm: seq<Admission>): nat {
    if adm == [] then 0 else NewTokens(c, adm[0]) + SumTokens(c, adm[1..])
  }

  /** A planned admission: its snapshot plan is sound, and it will compute at least one token. */
  ghost predicate Planned(c: Config, s: Sys, led: Ledger, a: Admission) {
    && a.id < |s.reqs|
    && PlanOk(c, s.pool, led, s.reqs[a.id], a.blocks)
    && Start(|a.blocks|, c.B) < a.end <= |s.reqs[a.id].tokens|
  }

  ghost predicate AllPlanned(c: Config, s: Sys, led: Ledger, adm: seq<Admission>) {
    forall k :: 0 <= k < |adm| ==> Planned(c, s, led, adm[k])
  }

  // ---------------------------------------------------------------- snapshots

  /** Every waiting request's snapshot plan is exactly what the lookup returned, and is sound. */
  ghost predicate Snapshot(c: Config, s: Sys, led: Ledger, prefixes: map<nat, seq<nat>>, ids: seq<nat>) {
    forall k :: 0 <= k < |ids| ==>
      ids[k] < |s.reqs| && ids[k] in prefixes && PlanOk(c, s.pool, led, s.reqs[ids[k]], prefixes[ids[k]])
  }

  lemma {:induction false} MatchWaitingOk(c: Config, s: Sys, led: Ledger, ids: seq<nat>)
    requires World(c, s.pool, s.reqs, led)
    requires forall k :: 0 <= k < |ids| ==> ids[k] < |s.reqs| && Settled(c, s.reqs[ids[k]])
    ensures MatchWaiting(c, s, ids).Ok?
    ensures Snapshot(c, s, led, MatchWaiting(c, s, ids).value, ids)
  {
    if ids != [] {
      MatchPrefixSound(c, s.pool, s.reqs, led, ids[0]);
      MatchWaitingOk(c, s, led, ids[1..]);
      var prefixes := MatchWaiting(c, s, ids).value;
      var rest := MatchWaiting(c, s, ids[1..]).value;
      forall k | 0 <= k < |ids|
        ensures ids[k] < |s.reqs| && ids[k] in prefixes && PlanOk(c, s.pool, led, s.reqs[ids[k]], prefixes[ids[k]])
      {
        if ids[k] != ids[0] {
          assert ids[1..][k - 1] == ids[k];
        }
      }
    }
  }

  // ---------------------------------------------------------------- the plan

  lemma ProtectedSnoc(pool: Pool, adm: seq<Admission>, a: Admission)
    ensures ProtectedBy(pool, adm + [a]) == ProtectedBy(pool, adm) + FreeAmong(pool, a.blocks)
  {
    if adm != [] {
      ProtectedSnoc(pool, adm[1..], a);
      assert (adm + [a])[1..] == adm[1..] + [a];
    } else {
      assert [a][1..] == [];
    }
  }

  lemma NewPagesSnoc(c: Config, adm: seq<Admission>, a: Admission)
    ensures NewPages(c, adm + [a]) == NewPages(c, adm) + Ceil(NewTokens(c, a), c.B)
    ensures SumTokens(c, adm + [a]) == SumTokens(c, adm) + NewTokens(c, a)
  {
    if adm != [] {
      NewPagesSnoc(c, adm[1..], a);
      assert (adm + [a])[1..] == adm[1..] + [a];
    } else {
      assert [a][1..] == [];
    }
  }

  /** The budget arithmetic: what is spent so far and what is left add up to what there was. */
  ghost predicate Budgeted(c: Config, s: Sys, adm: seq<Admission>, tokens: nat, free: nat, tokenBudget: nat,
                           freeBudget: nat, protected: set<nat>) {
    && protected == ProtectedBy(s.pool, adm)
    && |protected| + NewPages(c, adm) + freeBudget == free
    && SumTokens(c, adm) + tokenBudget == tokens
  }

  ghost predicate Finishing(s: Sys, a: Admission) {
    a.id < |s.reqs| && a.end == |s.reqs[a.id].tokens|
  }

  /** The outcome of planning: the first `m` ranked requests, each planned, within both budgets, all but the last
      complete. */
  ghost predicate FrozenPlan(c: Config, s: Sys, led: Ledger, ranked: seq<nat>, adm: seq<Admission>, tokens: nat,
                             free: nat, active: nat) {
    && |adm| <= |ranked| && Ids(adm) == ranked[..|adm|]
    && AllPlanned(c, s, led, adm)
    && |ProtectedBy(s.pool, adm)| + NewPages(c, adm) <= free
    && SumTokens(c, adm) <= tokens
    && (|adm| > 0 ==> active + |adm| <= c.maxSeqs)
    && (forall k :: 0 <= k < |adm| && (k < |adm| - 1 || !c.chunked) ==> Finishing(s, adm[k]))
  }

  lemma BudgetStep(c: Config, s: Sys, adm: seq<Admission>, a: Admission, tokens: nat, free: nat, tokenBudget: nat,
                   freeBudget: nat, protected: set<nat>)
    requires Budgeted(c, s, adm, tokens, free, tokenBudget, freeBudget, protected)
    requires NewTokens(c, a) <= tokenBudget
    requires |FreeAmong(s.pool, a.blocks) - protected| + Ceil(NewTokens(c, a), c.B) <= freeBudget
    ensures |ProtectedBy(s.pool, adm + [a])| + NewPages(c, adm + [a]) <= free && SumTokens(c, adm + [a]) <= tokens
    ensures var newly := FreeAmong(s.pool, a.blocks) - protected;
            Budgeted(c, s, adm + [a], tokens, free, tokenBudget - NewTokens(c, a),
                     freeBudget - (|newly| + Ceil(NewTokens(c, a), c.B)), protected + newly)
  {
    ProtectedSnoc(s.pool, adm, a);
    NewPagesSnoc(c, adm, a);
    var newly := FreeAmong(s.pool, a.blocks) - protected;
    assert protected + newly == protected + FreeAmong(s.pool, a.blocks);
  }

  /** One round of planning never fails; an admission it plans is sound, and complete unless it is the last one. */
  lemma PlanRoundOk(c: Config, s: Sys, led: Ledger, prefixes: map<nat, seq<nat>>, id: nat, tokenBudget: nat,
                    freeBudget: nat, protected: set<nat>)
    requires id < |s.reqs| && id in prefixes && PlanOk(c, s.pool, led, s.reqs[id], prefixes[id])
    requires Idle(s.reqs[id]) && |s.reqs[id].tokens| >= 1
    ensures var d := PlanRound(c, s, prefixes, id, tokenBudget, freeBudget, protected);
            && d.Ok?
            && (d.value.PlanTake? ==>
                  var a := d.value.admission;
                  && a.id == id && Planned(c, s, led, a)
                  && d.value.tokens == NewTokens(c, a)
                  && d.value.newly == FreeAmong(s.pool, a.blocks) - protected
                  && d.value.cost == |d.value.newly| + Ceil(NewTokens(c, a), c.B)
                  && (d.value.partial <==> !Finishing(s, a))
                  && (!c.chunked ==> Finishing(s, a)))
  {
    hide PlanOk, FreeAmong;
    PlanLeavesToken(c, s.pool, led, s.reqs[id], prefixes[id]);
  }

  lemma {:induction false} PlanFrozenOk(c: Config, s: Sys, led: Ledger, prefixes: map<nat, seq<nat>>, all: seq<nat>,
                                        ranked: seq<nat>,
                                        tokens: nat, free: nat, tokenBudget: nat, freeBudget: nat, protected: set<nat>,
                                            active: nat, adm: seq<Admission>)
    requires Snapshot(c, s, led, prefixes, all) && |adm| <= |all| && ranked == all[|adm|..]
    requires forall k :: 0 <= k < |all| ==> Idle(s.reqs[all[k]]) && |s.reqs[all[k]].tokens| >= 1
    requires FrozenPlan(c, s, led, all, adm, tokens, free, active)
    requires forall k :: 0 <= k < |adm| ==> Finishing(s, adm[k])
    requires Budgeted(c, s, adm, tokens, free, tokenBudget, freeBudget, protected)
    ensures PlanFrozen(c, s, prefixes, ranked, tokenBudget, freeBudget, protected, active, adm).Ok?
    ensures FrozenPlan(c, s, led, all, PlanFrozen(c, s, prefixes, ranked, tokenBudget, freeBudget, protected, active,
                                                  adm).value, tokens, free, active)
    decreases |ranked|
  {
    hide PlanOk, Budgeted, FrozenPlan, ProtectedBy, NewPages, SumTokens, PlanRound, Planned, FreeAmong, NewTokens;
    if ranked != [] && active + |adm| < c.maxSeqs {
      var id := ranked[0];
      assert id == all[|adm|];
      PlanRoundOk(c, s, led, prefixes, id, tokenBudget, freeBudget, protected);
      var d := PlanRound(c, s, prefixes, id, tokenBudget, freeBudget, protected).value;
      if d.PlanTake? {
        BudgetStep(c, s, adm, d.admission, tokens, free, tokenBudget, freeBudget, protected);
        FrozenPlanSnoc(c, s, led, all, adm, d.admission, tokens, free, active);
        if !d.partial {
          PlanFrozenOk(c, s, led, prefixes, all, ranked[1..], tokens, free, tokenBudget - d.tokens, freeBudget - d.cost,
                       protected + d.newly, active, adm + [d.admission]);
        }
      }
    }
  }

  lemma FrozenPlanSnoc(c: Config, s: Sys, led: Ledger, all: seq<nat>, adm: seq<Admission>, a: Admission, tokens: nat,
                       free: nat, active: nat)
    requires FrozenPlan(c, s, led, all, adm, tokens, free, active) && |adm| < |all| && a.id == all[|adm|]
    requires forall k :: 0 <= k < |adm| ==> Finishing(s, adm[k])
    requires Planned(c, s, led, a) && (c.chunked || Finishing(s, a))
    requires |ProtectedBy(s.pool, adm + [a])| + NewPages(c, adm + [a]) <= free
    requires SumTokens(c, adm + [a]) <= tokens && active + |adm| < c.maxSeqs
    ensures FrozenPlan(c, s, led, all, adm + [a], tokens, free, active)
  {
    hide PlanOk;
    assert Ids(adm + [a]) == Ids(adm) + [a.id];
    assert all[..|adm| + 1] == all[..|adm|] + [a.id];
  }

  // ---------------------------------------------------------------- claiming all plans

  ghost predicate ClaimedReq(c: Config, s0: Sys, s: Sys, a: Admission)
    requires |s.reqs| == |s0.reqs|
  {
    && a.id < |s0.reqs|
    && s.reqs[a.id] == s0.reqs[a.id].(table := a.blocks, cached := Start(|a.blocks|, c.B))
  }

  /** The requests in `done` hold exactly their planned pages; nobody else has changed. */
  ghost predicate ClaimedOnly(c: Config, s0: Sys, s: Sys, done: seq<Admission>) {
    && |s.reqs| == |s0.reqs|
    && s.waiting == s0.waiting && s.running == s0.running && s.chunked == s0.chunked
    && (forall k :: 0 <= k < |done| ==> ClaimedReq(c, s0, s, done[k]))
    && (forall id: nat :: id < |s0.reqs| && id !in Ids(done) ==> s.reqs[id] == s0.reqs[id])
  }

  lemma ProtectedStep(pool: Pool, pool': Pool, adm: seq<Admission>, ids: seq<nat>)
    requires forall x :: x in pool'.free <==> x in pool.free && x !in ids
    ensures ProtectedBy(pool', adm) == ProtectedBy(pool, adm) - FreeAmong(pool, ids)
  {
    if adm != [] {
      ProtectedStep(pool, pool', adm[1..], ids);
      assert FreeAmong(pool', adm[0].blocks) == FreeAmong(pool, adm[0].blocks) - FreeAmong(pool, ids);
    }
  }

  lemma SameIdentitiesTrans(a: seq<Page>, b: seq<Page>, d: seq<Page>)
    requires SameIdentities(a, b) && SameIdentities(b, d)
    ensures SameIdentities(a, d)
  {
    forall x: nat | x < |a|
      ensures d[x].(refs := 0) == a[x].(refs := 0)
    {
      assert b[x].(refs := 0) == a[x].(refs := 0);
    }
  }

  /** The first claim succeeds, and every later plan survives it. */
  lemma ClaimFirst(c: Config, s: Sys, led: Ledger, kv: Memory, adm: seq<Admission>)
    requires Consistent(c, s.pool, s.reqs, led, kv) && adm != []
    requires AllPlanned(c, s, led, adm) && NoDup(Ids(adm))
    requires forall k :: 0 <= k < |adm| ==> Idle(s.reqs[adm[k].id]) && s.reqs[adm[k].id].newToks == 0
    ensures ClaimStep(c, s, adm[0].id, adm[0].blocks).Ok? && adm[0].id < |s.reqs|
    ensures var s1 := ClaimStep(c, s, adm[0].id, adm[0].blocks).value;
            && Consistent(c, s1.pool, s1.reqs, led, kv) && SameIdentities(s.pool.pages, s1.pool.pages)
            && s1 == s.(pool := s1.pool, reqs := s1.reqs)
            && s1.reqs == s.reqs[adm[0].id := s.reqs[adm[0].id].(table := adm[0].blocks,
                                                                 cached := Start(|adm[0].blocks|, c.B))]
            && AllPlanned(c, s1, led, adm[1..]) && NoDup(Ids(adm[1..]))
            && (forall k :: 0 <= k < |adm[1..]| ==>
                 Idle(s1.reqs[adm[1..][k].id]) && s1.reqs[adm[1..][k].id].newToks == 0)
            && (forall x :: x in s1.pool.free <==> x in s.pool.free && x !in adm[0].blocks)
            && |s1.pool.free| + |FreeAmong(s.pool, adm[0].blocks)| == |s.pool.free|
  {
    hide Consistent, PlanOk, ClaimPrefix;
    var a := adm[0];
    assert Planned(c, s, led, a);
    ClaimPrefixOk(c, s.pool, s.reqs, led, kv, a.id, a.blocks);
    var v := ClaimPrefix(c, s.pool, s.reqs[a.id], a.blocks).value;
    var s1 := s.Put(a.id, v.0, v.1);
    assert s.reqs[a.id].table + a.blocks == a.blocks;
    assert s1.reqs == s.reqs[a.id := s.reqs[a.id].(table := a.blocks, cached := Start(|a.blocks|, c.B))];
    ClaimKeepsPlans(c, s, s1, led, kv, adm);
  }

  /** Pages the first plan claims and those the rest will claim, each counted once. */
  lemma ProtectedSplit(pool: Pool, pool1: Pool, adm: seq<Admission>)
    requires adm != [] && forall x :: x in pool1.free <==> x in pool.free && x !in adm[0].blocks
    ensures |ProtectedBy(pool, adm)| == |FreeAmong(pool, adm[0].blocks)| + |ProtectedBy(pool1, adm[1..])|
  {
    ProtectedStep(pool, pool1, adm[1..], adm[0].blocks);
    assert ProtectedBy(pool, adm) == FreeAmong(pool, adm[0].blocks) + ProtectedBy(pool1, adm[1..]);
  }

  /** Frozen plans stay valid: whatever has been claimed before, the next plan is still claimable. */
  lemma {:induction false} ClaimAdmittedOk(c: Config, s: Sys, led: Ledger, kv: Memory, adm: seq<Admission>)
    requires Consistent(c, s.pool, s.reqs, led, kv)
    requires AllPlanned(c, s, led, adm) && NoDup(Ids(adm))
    requires forall k :: 0 <= k < |adm| ==> Idle(s.reqs[adm[k].id]) && s.reqs[adm[k].id].newToks == 0
    ensures ClaimAdmitted(c, s, adm).Ok?
    ensures var s' := ClaimAdmitted(c, s, adm).value;
            && Consistent(c, s'.pool, s'.reqs, led, kv)
            && ClaimedOnly(c, s, s', adm)
            && SameIdentities(s.pool.pages, s'.pool.pages)
            && |s'.pool.free| + |ProtectedBy(s.pool, adm)| == |s.pool.free|
    decreases |adm|
  {
    hide Consistent, PlanOk, AllPlanned, FreeAmong, ClaimStep;
    if adm != [] {
      hide ProtectedBy, SameIdentities;
      ClaimFirst(c, s, led, kv, adm);
      var s1 := ClaimStep(c, s, adm[0].id, adm[0].blocks).value;
      ClaimAdmittedOk(c, s1, led, kv, adm[1..]);
      var s' := ClaimAdmitted(c, s1, adm[1..]).value;
      ClaimedOnlyStep(c, s, s1, s', adm);
      ProtectedSplit(s.pool, s1.pool, adm);
      SameIdentitiesTrans(s.pool.pages, s1.pool.pages, s'.pool.pages);
    }
  }

  lemma ClaimKeepsPlans(c: Config, s: Sys, s1: Sys, led: Ledger, kv: Memory, adm: seq<Admission>)
    requires adm != [] && AllPlanned(c, s, led, adm) && NoDup(Ids(adm))
    requires Consistent(c, s1.pool, s1.reqs, led, kv) && SameIdentities(s.pool.pages, s1.pool.pages)
             && s1.pool.owner == s.pool.owner
    requires |s1.reqs| == |s.reqs| && forall x: nat :: x < |s.reqs| && x != adm[0].id ==> s1.reqs[x] == s.reqs[x]
    requires forall k :: 0 <= k < |adm| ==> Idle(s.reqs[adm[k].id]) && s.reqs[adm[k].id].newToks == 0
    ensures AllPlanned(c, s1, led, adm[1..]) && NoDup(Ids(adm[1..]))
    ensures forall k :: 0 <= k < |adm[1..]| ==> Idle(s1.reqs[adm[1..][k].id]) && s1.reqs[adm[1..][k].id].newToks == 0
  {
    var rest := adm[1..];
    forall i, j | 0 <= i < j < |Ids(rest)|
      ensures Ids(rest)[i] != Ids(rest)[j]
    {
      assert Ids(rest)[i] == Ids(adm)[i + 1] && Ids(rest)[j] == Ids(adm)[j + 1];
    }
    forall k | 0 <= k < |rest|
      ensures Planned(c, s1, led, rest[k]) && Idle(s1.reqs[rest[k].id]) && s1.reqs[rest[k].id].newToks == 0
    {
      assert Planned(c, s, led, adm[k + 1]);
      assert Ids(adm)[0] != Ids(adm)[k + 1];
      PlanSurvivesClaims(c, s.pool, s1.pool, s.reqs, s1.reqs, led, s.reqs[rest[k].id], rest[k].blocks);
    }
  }

  lemma ClaimedOnlyStep(c: Config, s: Sys, s1: Sys, s': Sys, adm: seq<Admission>)
    requires adm != [] && adm[0].id < |s.reqs| && NoDup(Ids(adm))
    requires s1.reqs == s.reqs[adm[0].id := s.reqs[adm[0].id].(table := adm[0].blocks,
                                                               cached := Start(|adm[0].blocks|, c.B))]
    requires s1.waiting == s.waiting && s1.running == s.running && s1.chunked == s.chunked
    requires ClaimedOnly(c, s1, s', adm[1..])
    ensures ClaimedOnly(c, s, s', adm)
  {
    var rest := adm[1..];
    assert Ids(adm) == [adm[0].id] + Ids(rest);
    assert adm[0].id !in Ids(rest) by {
      forall k | 0 <= k < |Ids(rest)| ensures Ids(rest)[k]
          != adm[0].id { assert Ids(adm)[k + 1] == Ids(rest)[k] && Ids(adm)[0] == adm[0].id; }
    }
    forall k | 0 <= k < |adm|
      ensures ClaimedReq(c, s, s', adm[k])
    {
      if k > 0 {
        assert ClaimedReq(c, s1, s', rest[k - 1]);
        assert Ids(adm)[0] != Ids(adm)[k];
      }
    }
  }

  // ---------------------------------------------------------------- allocating all suffixes

  ghost predicate HalfReq(c: Config, s0: Sys, s: Sys, pre: seq<nat>, todo: seq<Admission>, id: nat)
    requires id < |s0.reqs| == |s.reqs|
  {
    if id in pre then Filled(s0.reqs[id], s.reqs[id])
    else id !in Ids(todo) ==> s.reqs[id] == s0.reqs[id]
  }

  /** Between the claims and the allocations: `pre` are done, `todo` hold their prefixes only. */
  ghost predicate HalfWay(c: Config, s0: Sys, s: Sys, pre: seq<nat>, todo: seq<Admission>) {
    && |s.reqs| == |s0.reqs|
    && s.running == s0.running && s.chunked == s0.chunked
    && NoDup(pre) && NoDup(Ids(todo))
    && (forall k :: 0 <= k < |pre| ==> pre[k] < |s0.reqs| && (pre[k] in s0.waiting || s0.chunked == Some(pre[k])))
    && NoDup(s.waiting)
    && (forall x :: x in s.waiting <==> x in s0.waiting && x !in pre)
    && (forall k :: 0 <= k < |todo| ==> Todo(c, s0, s, pre, todo[k]))
    && (forall id: nat {:trigger HalfReq(c, s0, s, pre, todo, id)} ::
         id < |s0.reqs| ==> HalfReq(c, s0, s, pre, todo, id))
  }

  ghost predicate Todo(c: Config, s0: Sys, s: Sys, pre: seq<nat>, a: Admission)
    requires |s.reqs| == |s0.reqs|
  {
    && ClaimedReq(c, s0, s, a)
    && a.id in s0.waiting && a.id !in pre
    && s0.reqs[a.id].newToks == 0 && s0.reqs[a.id].cached == 0
    && Start(|a.blocks|, c.B) < a.end <= |s0.reqs[a.id].tokens|
  }

  /** What the first allocation leaves. */
  function FirstAllocated(c: Config, s: Sys, todo: seq<Admission>): Result<Sys>
    requires todo != []
  {
    AllocateStep(c, s, todo[0].id, Max(todo[0].end - s.Get(todo[0].id).cached, 0))
  }

  /** One allocation turns a claimed request into a filled one. */
  lemma AllocateFirst(c: Config, s0: Sys, s: Sys, led: Ledger, kv: Memory, pre: seq<nat>, todo: seq<Admission>)
    returns (led': Ledger)
    requires Consistent(c, s.pool, s.reqs, led, kv) && |s.pool.pages| == c.numBlocks
    requires HalfWay(c, s0, s, pre, todo) && todo != []
    requires NewPages(c, todo) <= |s.pool.free|
    ensures FirstAllocated(c, s, todo).Ok? && todo[0].id < |s.reqs| == |s0.reqs|
    ensures var s' := FirstAllocated(c, s, todo).value;
            && AllocateAdmitted(c, s, todo) == AllocateAdmitted(c, s', todo[1..])
            && Consistent(c, s'.pool, s'.reqs, led', kv) && |s'.pool.pages| == c.numBlocks
            && |s'.reqs| == |s.reqs| && s'.reqs == s.reqs[todo[0].id := s'.reqs[todo[0].id]]
            && Filled(s0.reqs[todo[0].id], s'.reqs[todo[0].id])
            && s'.reqs[todo[0].id].Context() == todo[0].end && s'.reqs[todo[0].id].newToks == NewTokens(c, todo[0])
            && s'.waiting == Remove(s.waiting, todo[0].id) && s'.running == s.running && s'.chunked == s.chunked
            && |s'.pool.free| == |s.pool.free| - Ceil(NewTokens(c, todo[0]), c.B)
    ensures LedgerExtends(led, led')
  {
    hide Consistent, AllocateNew;
    var a := todo[0];
    assert Todo(c, s0, s, pre, a);
    var r := s.reqs[a.id];
    var n := a.end - r.cached;
    led' := AllocateNewOk(c, s.pool, s.reqs, led, kv, a.id, n);
    var v := AllocateNew(c, s.pool, r.(newToks := n)).value;
    StatusIrrelevantMid(c, v.0, s.reqs[a.id := v.1], led', kv, a.id, Running);
    var s' := FirstAllocated(c, s, todo).value;
    assert s'.reqs == s.reqs[a.id := v.1][a.id := v.1.(status := Running)];
  }

  lemma HalfWayStep(c: Config, s0: Sys, s: Sys, s': Sys, pre: seq<nat>, todo: seq<Admission>)
    requires HalfWay(c, s0, s, pre, todo) && todo != []
    requires |s'.reqs| == |s.reqs| && todo[0].id < |s.reqs| && s'.reqs == s.reqs[todo[0].id := s'.reqs[todo[0].id]]
    requires Filled(s0.reqs[todo[0].id], s'.reqs[todo[0].id])
    requires s'.waiting == Remove(s.waiting, todo[0].id) && s'.running == s.running && s'.chunked == s.chunked
    ensures HalfWay(c, s0, s', pre + [todo[0].id], todo[1..])
  {
    var id := todo[0].id;
    var rest := todo[1..];
    RemoveSound(s.waiting, id);
    assert Todo(c, s0, s, pre, todo[0]);
    assert Ids(todo) == [id] + Ids(rest);
    forall i, j | 0 <= i < j < |Ids(rest)|
      ensures Ids(rest)[i] != Ids(rest)[j]
    {
      assert Ids(todo)[i + 1] == Ids(rest)[i] && Ids(todo)[j + 1] == Ids(rest)[j];
    }
    forall k | 0 <= k < |rest|
      ensures Todo(c, s0, s', pre + [id], rest[k])
    {
      assert Todo(c, s0, s, pre, todo[k + 1]);
      assert Ids(todo)[0] != Ids(todo)[k + 1];
    }
    forall x: nat | x < |s0.reqs|
      ensures HalfReq(c, s0, s', pre + [id], rest, x)
    {
      assert HalfReq(c, s0, s, pre, todo, x);
    }
  }

  /** What the allocations leave behind. */
  ghost predicate Allocated(c: Config, s: Sys, s': Sys, pre: seq<nat>, todo: seq<Admission>) {
    && |s'.reqs| == |s.reqs|
    && s'.waiting == RemoveAll(s.waiting, Ids(todo))
    && |s'.pool.free| + NewPages(c, todo) == |s.pool.free|
    && SumNew(s'.reqs, pre + Ids(todo)) == SumNew(s.reqs, pre) + SumTokens(c, todo)
    && (forall x: nat :: x < |s.reqs| && x !in Ids(todo) ==> s'.reqs[x] == s.reqs[x])
    && (forall k :: 0 <= k < |todo| ==> todo[k].id < |s.reqs| && s'.reqs[todo[k].id].Context() == todo[k].end)
  }

  lemma AllocatedStep(c: Config, s0: Sys, s: Sys, s1: Sys, s': Sys, pre: seq<nat>, todo: seq<Admission>)
    requires todo != [] && NoDup(Ids(todo)) && todo[0].id !in pre
    requires |s1.reqs| == |s.reqs| && todo[0].id < |s.reqs| && s1.reqs == s.reqs[todo[0].id := s1.reqs[todo[0].id]]
    requires s1.reqs[todo[0].id].Context() == todo[0].end && s1.reqs[todo[0].id].newToks == NewTokens(c, todo[0])
    requires s1.waiting == Remove(s.waiting, todo[0].id)
    requires |s1.pool.free| == |s.pool.free| - Ceil(NewTokens(c, todo[0]), c.B)
    requires Allocated(c, s1, s', pre + [todo[0].id], todo[1..])
    ensures Allocated(c, s, s', pre, todo)
  {
    var id := todo[0].id;
    var rest := todo[1..];
    assert Ids(todo) == [id] + Ids(rest);
    assert pre + Ids(todo) == pre + [id] + Ids(rest);
    assert Ids(todo)[1..] == Ids(rest);
    SumNewSnoc(s.reqs, id, s1.reqs[id], pre);
    assert id !in Ids(rest) by {
      forall k | 0 <= k < |Ids(rest)| ensures Ids(rest)[k]
          != id { assert Ids(todo)[k + 1] == Ids(rest)[k] && Ids(todo)[0] == id; }
    }
    forall k | 0 <= k < |todo|
      ensures todo[k].id < |s.reqs| && s'.reqs[todo[k].id].Context() == todo[k].end
    {
      if k > 0 { assert todo[k] == rest[k - 1]; }
    }
  }

  lemma AllocatedNone(c: Config, s0: Sys, s: Sys, led: Ledger, kv: Memory, pre: seq<nat>, todo: seq<Admission>)
    requires Consistent(c, s.pool, s.reqs, led, kv) && |s.pool.pages| == c.numBlocks
    requires HalfWay(c, s0, s, pre, todo) && todo == []
    ensures Mid(c, s0, s, led, kv, pre + Ids(todo)) && Allocated(c, s, s, pre, todo)
  {
    hide Consistent;
    assert pre + Ids(todo) == pre;
    forall id: nat | id < |s0.reqs|
      ensures MidReq(s0, s, pre, id)
    {
      assert HalfReq(c, s0, s, pre, todo, id);
    }
  }

  lemma HalfWayHead(c: Config, s0: Sys, s: Sys, pre: seq<nat>, todo: seq<Admission>)
    requires HalfWay(c, s0, s, pre, todo) && todo != []
    ensures NoDup(Ids(todo)) && todo[0].id < |s.reqs| && todo[0].id !in pre
  {
    assert Todo(c, s0, s, pre, todo[0]);
  }

  lemma {:induction false} AllocateAdmittedOk(c: Config, s0: Sys, s: Sys, led: Ledger, kv: Memory, pre: seq<nat>,
                                              todo: seq<Admission>)
    returns (led': Ledger)
    requires Consistent(c, s.pool, s.reqs, led, kv) && |s.pool.pages| == c.numBlocks
    requires HalfWay(c, s0, s, pre, todo)
    requires NewPages(c, todo) <= |s.pool.free|
    ensures AllocateAdmitted(c, s, todo).Ok?
    ensures var s' := AllocateAdmitted(c, s, todo).value;
            Mid(c, s0, s', led', kv, pre + Ids(todo)) && Allocated(c, s, s', pre, todo)
    ensures LedgerExtends(led, led')
    decreases |todo|
  {
    hide Consistent, Mid, Allocated, HalfWay, FirstAllocated;
    if todo == [] {
      led' := led;
      AllocatedNone(c, s0, s, led, kv, pre, todo);
    } else {
      HalfWayHead(c, s0, s, pre, todo);
      var led1 := AllocateFirst(c, s0, s, led, kv, pre, todo);
      var s1 := FirstAllocated(c, s, todo).value;
      HalfWayStep(c, s0, s, s1, pre, todo);
      led' := AllocateAdmittedOk(c, s0, s1, led1, kv, pre + [todo[0].id], todo[1..]);
      var s' := AllocateAdmitted(c, s1, todo[1..]).value;
      AllocatedStep(c, s0, s, s1, s', pre, todo);
      assert Ids(todo) == [todo[0].id] + Ids(todo[1..]);
      assert pre + Ids(todo) == pre + [todo[0].id] + Ids(todo[1..]);
    }
  }
}
