/** The scheduler as an object: three queues of requests, updated in place, over one block manager. */
module Schedulers {
  import opened Arith
  import opened Seqs
  import opened Requests
  import opened Pages
  import opened Sequences
  import opened BlockManagement
  import opened Scheduling

  /** Requests are named by their `seq_id`. */
  function IdsOf(qs: seq<Sequence>): (ids: seq<nat>)
    ensures |ids| == |qs|
  {
    seq(|qs|, i requires 0 <= i < |qs| => qs[i].seqId)
  }

  function IdOf(q: Sequence?): Option<nat> {
    if q == null then None else Some(q.seqId)
  }

  /** Different requests have different names. */
  ghost predicate Named(all: seq<Sequence>, q: Sequence) {
    q.seqId < |all| && all[q.seqId] == q
  }

  ghost predicate AllNamed(all: seq<Sequence>, qs: seq<Sequence>) {
    forall k :: 0 <= k < |qs| ==> Named(all, qs[k])
  }

  lemma {:induction false} RemoveIds(all: seq<Sequence>, qs: seq<Sequence>, q: Sequence)
    requires AllNamed(all, qs) && Named(all, q)
    ensures IdsOf(Remove(qs, q)) == Remove(IdsOf(qs), q.seqId)
    ensures AllNamed(all, Remove(qs, q))
  {
    if qs == [] {
    } else if qs[0] == q {
      assert IdsOf(qs)[1..] == IdsOf(qs[1..]);
    } else {
      RemoveIds(all, qs[1..], q);
      assert qs[0].seqId != q.seqId;
      assert IdsOf(qs)[1..] == IdsOf(qs[1..]);
      assert IdsOf([qs[0]] + Remove(qs[1..], q)) == [qs[0].seqId] + IdsOf(Remove(qs[1..], q));
    }
  }

  lemma {:induction false} InsertIds(hits: nat -> nat, q: Sequence, qs: seq<Sequence>)
    ensures IdsOf(InsertBy((x: Sequence) => hits(x.seqId), q, qs)) == InsertBy(hits, q.seqId, IdsOf(qs))
  {
    if qs != [] && hits(qs[0].seqId) > hits(q.seqId) {
      InsertIds(hits, q, qs[1..]);
      assert IdsOf(qs)[1..] == IdsOf(qs[1..]);
    }
  }

  lemma {:induction false} SortIds(hits: nat -> nat, qs: seq<Sequence>)
    ensures IdsOf(SortBy((x: Sequence) => hits(x.seqId), qs)) == SortBy(hits, IdsOf(qs))
  {
    if qs != [] {
      SortIds(hits, qs[1..]);
      assert IdsOf(qs)[1..] == IdsOf(qs[1..]);
      InsertIds(hits, qs[0], SortBy((x: Sequence) => hits(x.seqId), qs[1..]));
    }
  }

  lemma {:induction false} InsertNamed(all: seq<Sequence>, hits: Sequence -> nat, q: Sequence, qs: seq<Sequence>)
    requires AllNamed(all, qs) && Named(all, q)
    ensures AllNamed(all, InsertBy(hits, q, qs))
  {
    if qs != [] && hits(qs[0]) > hits(q) {
      InsertNamed(all, hits, q, qs[1..]);
    }
  }

  lemma {:induction false} SortNamed(all: seq<Sequence>, hits: Sequence -> nat, qs: seq<Sequence>)
    requires AllNamed(all, qs)
    ensures AllNamed(all, SortBy(hits, qs))
  {
    if qs != [] {
      SortNamed(all, hits, qs[1..]);
      InsertNamed(all, hits, qs[0], SortBy(hits, qs[1..]));
    }
  }

  /** An operation raised what its specification raises, or left the state its specification computes. */
  ghost predicate Yields(r: Result<()>, spec: Result<Sys>, s: Sys) {
    if spec.Ok? then r.Ok? && s == spec.value else r == Err(spec.error)
  }

  class Scheduler {
    const config: Config
    const blockManager: BlockManager
    var waiting: seq<Sequence>
    var chunkedReq: Sequence?
    var running: seq<Sequence>
    var numScheduledPrefillSeqs: nat
    ghost var all: seq<Sequence>       // every request ever added, at its seq_id

    ghost predicate Valid()
      reads this`all, this`waiting, this`running, this`chunkedReq, all
    {
      && blockManager.Valid() && blockManager.config == config
      && (forall i: nat {:trigger all[i]} :: i < |all| ==>
           all[i].seqId == i && all[i].config == config && all[i].Valid())
      && AllNamed(all, waiting) && AllNamed(all, running)
      && (chunkedReq != null ==> Named(all, chunkedReq))
    }

    /** The whole state as a value. */
    ghost function View(): Sys
      reads this`all, this`waiting, this`chunkedReq, this`running, all, blockManager, blockManager.blocks
    {
      Sys(blockManager.View(), ViewsOf(all), IdsOf(waiting), IdOf(chunkedReq), IdsOf(running))
    }

    constructor (config: Config)
      ensures Valid() && this.config == config
      ensures View() == Sys(InitPool(config), [], [], None, [])
    {
      this.config := config;
      blockManager := new BlockManager(config);
      waiting, chunkedReq, running, numScheduledPrefillSeqs, all := [], null, [], 0, [];
      new;
      assert ViewsOf(all) == [];
    }

    lemma QueuesNamed()
      requires Valid()
      ensures AllNamed(all, running) && AllNamed(all, waiting) && (chunkedReq != null ==> Named(all, chunkedReq))
      ensures blockManager.config == config
    {
    }

    lemma NamedValid(q: Sequence)
      requires Valid() && Named(all, q)
      ensures q.Valid() && q.config == config && View().Get(q.seqId) == q.View()
    {
    }

    /** After work on one request, only its entry has changed. */
    twostate lemma OneChanged(q: Sequence)
      requires q.seqId < |all| && all[q.seqId] == q && all == old(all)
      requires forall i: nat {:trigger all[i]} :: i < |all| && i != q.seqId ==> all[i].View() == old(all[i].View())
      ensures ViewsOf(all) == old(ViewsOf(all))[q.seqId := q.View()]
    {
    }

    method IsFinished() returns (done: bool)
      ensures done == View().IsFinished()
    {
      done := waiting == [] && chunkedReq == null && running == [];
    }

    // -------------------------------------------------------------- preemption

    /** What preemption and finishing share: a new status, and all pages given back. */
    method ReleaseSequence(q: Sequence, status: Status) returns (r: Result<()>)
      requires Valid() && Named(all, q)
      modifies blockManager, blockManager.blocks, all
      ensures Yields(r, Released(old(View()), q.seqId, status), View())
      ensures r.Ok? ==> Valid()
    {
      hide Deallocate, BlockHashes;
      StatusBesidesPages(View().pool, q.View(), status);
      q.status := status;
      var _ :- blockManager.DeallocateSequence(q);
      OneChanged(q);
      return Ok(());
    }

    /** `preempt` */
    method PreemptSequence(q: Sequence) returns (r: Result<()>)
      requires Valid() && Named(all, q)
      modifies this`waiting, blockManager, blockManager.blocks, all
      ensures Yields(r, Preempt(config, old(View()), q.seqId), View())
      ensures r.Ok? ==> Valid()
      ensures r.Ok? ==> waiting == [q] + old(waiting)
    {
      hide BlockHashes, Released, Preempt;
      PreemptIsRelease(config, View(), q.seqId);
      var _ :- ReleaseSequence(q, Waiting);
      waiting := [q] + waiting;
      return Ok(());
    }

    /** `sum(num_blocks_to_append(seq, 1) for seq in running)` */
    method CountDecodeBlocks(qs: seq<Sequence>) returns (n: nat)
      requires Valid() && AllNamed(all, qs)
      ensures n == SumAppend(config, View().reqs, IdsOf(qs))
    {
      n := 0;
      var k := 0;
      assert IdsOf(qs)[0..] == IdsOf(qs);
      while k < |qs|
        invariant 0 <= k <= |qs|
        invariant n + SumAppend(config, View().reqs, IdsOf(qs)[k..]) == SumAppend(config, View().reqs, IdsOf(qs))
      {
        assert IdsOf(qs)[k..][1..] == IdsOf(qs)[k + 1..];
        assert Named(all, qs[k]);
        var blocks := blockManager.CountToAppend(qs[k], 1);
        n := n + blocks;
        k := k + 1;
      }
    }

    /** `self.preempt(self.running.pop())` */
    method PreemptLast() returns (r: Result<()>)
      requires Valid() && running != []
      modifies this`waiting, this`running, blockManager, blockManager.blocks, all
      ensures var s, n := old(View()), |old(running)| - 1;
              Yields(r, Preempt(config, s.(running := s.running[..n]), s.running[n]), View())
      ensures r.Ok? ==> Valid()
      ensures |running| == old(|running|) - 1
    {
      hide Preempt;
      var n := |running| - 1;
      var q := running[n];
      ghost var s := View();
      running := running[..n];
      assert IdsOf(running) == s.running[..n];
      assert View() == s.(running := s.running[..n]) by { assert ViewsOf(all) == s.reqs; }
      r := PreemptSequence(q);
    }

    /** `_preempt_decode_tail` */
    method PreemptDecodeTail() returns (r: Result<()>)
      requires Valid()
      modifies this`waiting, this`running, blockManager, blockManager.blocks, all
      ensures Yields(r, PreemptTail(config, old(View())), View())
      ensures r.Ok? ==> Valid()
    {
      hide Preempt, PreemptTail, SumAppend, Scheduler.Valid, AllNamed;
      while running != []
        invariant Valid()
        invariant PreemptTail(config, View()) == PreemptTail(config, old(View()))
        decreases |running|
      {
        QueuesNamed();
        PreemptOnce(config, View());
        var decodeBlocks := CountDecodeBlocks(running);
        if |running| <= config.maxBatch && decodeBlocks <= |blockManager.freeBlockIds| {
          return Ok(());
        }
        var _ :- PreemptLast();
      }
      PreemptOnce(config, View());
      return Ok(());
    }

    // -------------------------------------------------------------- ranking

    /** `_match_waiting`; prefixes are kept by `seq_id`. */
    method LookUpWaiting() returns (r: Result<map<nat, seq<nat>>>)
      requires Valid()
      ensures r == MatchWaiting(config, View(), IdsOf(waiting))
    {
      hide MatchPrefix;
      var prefixes: map<nat, seq<nat>> := map[];
      var k := 0;
      assert IdsOf(waiting)[0..] == IdsOf(waiting);
      JoinedEnds(config, View(), MatchWaiting(config, View(), IdsOf(waiting)), prefixes);
      while k < |waiting|
        invariant 0 <= k <= |waiting|
        invariant forall x :: x in prefixes ==> MatchPrefix(config, View().pool, View().Get(x)) == Ok(prefixes[x])
        invariant MatchWaiting(config, View(), IdsOf(waiting))
                  == Joined(MatchWaiting(config, View(), IdsOf(waiting)[k..]), prefixes)
      {
        ghost var rest := IdsOf(waiting)[k..];
        assert rest[1..] == IdsOf(waiting)[k + 1..];
        var q := waiting[k];
        assert Named(all, q) && rest[0] == q.seqId;
        var found := blockManager.FindPrefix(q);
        JoinedStep(config, View(), rest, prefixes);
        if found.Err? {
          return Err(found.error);
        }
        prefixes := prefixes[q.seqId := found.value];
        k := k + 1;
      }
      assert IdsOf(waiting)[k..] == [];
      JoinedEnds(config, View(), MatchWaiting(config, View(), IdsOf(waiting)), prefixes);
      return Ok(prefixes);
    }

    /** `_rank_waiting` */
    method RankWaiting(prefixes: map<nat, seq<nat>>) returns (ranked: seq<Sequence>)
      requires Valid()
      ensures IdsOf(ranked) == Rank(config, prefixes, IdsOf(waiting)) && AllNamed(all, ranked)
    {
      if config.lpm {
        SortIds(HitsOf(prefixes), waiting);
        SortNamed(all, (x: Sequence) => HitsOf(prefixes)(x.seqId), waiting);
        ranked := SortBy((x: Sequence) => HitsOf(prefixes)(x.seqId), waiting);
      } else {
        ranked := waiting;
      }
    }

    // -------------------------------------------------------------- admission

    /** `claim_prefix`, `num_new_tokens = n`, `allocate_new`. */
    method ClaimAndAllocate(q: Sequence, blocks: seq<nat>, n: nat) returns (r: Result<()>)
      requires blockManager.Valid() && q.Valid() && q.config == config == blockManager.config
      modifies blockManager, blockManager.blocks, q`blockTable, q`numCachedTokens, q`numNewTokens
      ensures q.Valid()
      ensures Agrees(r, PagesOfAdmission(config, old(blockManager.View()), old(q.View()), blocks, n),
                     blockManager.View(), q.View())
    {
      hide ClaimPrefix, AllocateNew, BlockHashes;
      var _ :- blockManager.ClaimPlan(q, blocks);
      q.numNewTokens := n;
      r := blockManager.AllocateNewBlocks(q);
    }

    /** `seq.status = RUNNING; self.waiting.remove(seq)` */
    method StartRunning(q: Sequence)
      requires Valid() && Named(all, q)
      modifies this`waiting, q`status
      ensures Valid()
      ensures View() == old(View()).(reqs := old(View().reqs)[q.seqId := old(q.View()).(status := Running)],
                                     waiting := Remove(old(View().waiting), q.seqId))
    {
      hide BlockHashes, Remove;
      q.status := Running;
      RemoveIds(all, waiting, q);
      waiting := Remove(waiting, q);
      OneChanged(q);
    }

    /** One admission of the same-step mode. */
    method AdmitSequence(q: Sequence, blocks: seq<nat>, n: nat) returns (r: Result<()>)
      requires Valid() && Named(all, q)
      modifies this`waiting, blockManager, blockManager.blocks, all
      ensures Yields(r, Admit(config, old(View()), q.seqId, blocks, n), View())
      ensures r.Ok? ==> Valid()
    {
      hide PagesOfAdmission, Admit, BlockHashes;
      AdmitInParts(config, View(), q.seqId, blocks, n);
      var _ :- ClaimAndAllocate(q, blocks, n);
      OneChanged(q);
      StartRunning(q);
      return Ok(());
    }

    /** The part of a round that only looks: how much of `q` may be admitted, if anything. */
    method DecideAdmission(q: Sequence, budget: nat, reserved: nat) returns (r: Result<Decision>)
      requires Valid() && Named(all, q)
      ensures r == Decide(config, View(), q.seqId, budget, reserved)
    {
      hide MatchPrefix, RequiredForAdmission, BlockHashes;
      var latest :- blockManager.FindPrefix(q);
      var cached := q.numCachedTokens + Start(|latest|, config.B);
      if q.numTokens <= cached {
        return Err(AssertionFailed);
      }
      var remaining := q.numTokens - cached;
      if !config.chunked && remaining > budget {
        return Ok(Stop);
      }
      var n := Min(remaining, budget);
      if n <= 0 {
        return Ok(Stop);
      }
      MatchNoDup(config, View().pool, View().Get(q.seqId));
      var required := blockManager.NumBlocksRequiredForAdmission(latest, n);
      if |blockManager.freeBlockIds| < reserved {
        return Err(AssertionFailed);
      }
      return Ok(if required.value > |blockManager.freeBlockIds| - reserved then Stop
                else Take(latest, n, n < remaining));
    }

    /** `_commit_waiting_same_step` */
    method CommitWaitingSameStep(ranked: seq<Sequence>, budget: nat, reserved: nat, active: nat)
        returns (r: Result<seq<Sequence>>)
      requires Valid() && AllNamed(all, ranked)
      modifies this`waiting, blockManager, blockManager.blocks, all
      ensures YieldsBatch(r, CommitSameStep(config, old(View()), IdsOf(ranked), budget, reserved, active, []), View())
      ensures r.Ok? ==> Valid() && AllNamed(all, r.value)
    {
      hide Admit, Decide, BlockHashes, Scheduler.Valid, Named;
      ghost var spec := CommitSameStep(config, View(), IdsOf(ranked), budget, reserved, active, []);
      var committed: seq<Sequence> := [];
      var tokenBudget: nat := budget;
      var k := 0;
      assert IdsOf(ranked)[0..] == IdsOf(ranked);
      while k < |ranked|
        invariant 0 <= k <= |ranked| && Valid() && AllNamed(all, committed)
        invariant CommitSameStep(config, View(), IdsOf(ranked)[k..], tokenBudget, reserved, active, IdsOf(committed))
                  == spec
      {
        ghost var s, rest, done := View(), IdsOf(ranked)[k..], IdsOf(committed);
        var q := ranked[k];
        assert Named(all, q) && rest[0] == q.seqId && rest[1..] == IdsOf(ranked)[k + 1..];
        if active + |committed| >= config.maxSeqs {
          return Ok(committed);
        }
        var decision := DecideAdmission(q, tokenBudget, reserved);
        if decision.Err? {
          return Err(decision.error);
        }
        if decision.value.Stop? {
          return Ok(committed);
        }
        var n := decision.value.tokens;
        var admitted := AdmitSequence(q, decision.value.blocks, n);
        if admitted.Err? {
          return Err(admitted.error);
        }
        committed := committed + [q];
        assert IdsOf(committed) == done + [q.seqId];
        tokenBudget := tokenBudget - n;
        if decision.value.partial {
          return Ok(committed);
        }
        k := k + 1;
      }
      return Ok(committed);
    }

    /** `num_new_tokens = n; may_append`, for the chunk and for decode. */
    method AppendTokens(q: Sequence, n: nat) returns (r: Result<()>)
      requires Valid() && Named(all, q)
      modifies blockManager, blockManager.blocks, all
      ensures Yields(r, ScheduleAppend(config, old(View()), q.seqId, n), View())
      ensures r.Ok? ==> Valid()
    {
      hide MayAppend, BlockHashes;
      q.numNewTokens := n;
      var _ :- blockManager.AppendBlocks(q);
      OneChanged(q);
      return Ok(());
    }

    /** The decode half of the batch. */
    method DecodeRunning(qs: seq<Sequence>) returns (r: Result<()>)
      requires Valid() && AllNamed(all, qs)
      modifies blockManager, blockManager.blocks, all
      ensures Yields(r, DecodeAll(config, old(View()), IdsOf(qs)), View())
      ensures r.Ok? ==> Valid()
    {
      hide ScheduleAppend, BlockHashes;
      var k := 0;
      assert IdsOf(qs)[0..] == IdsOf(qs);
      while k < |qs|
        invariant 0 <= k <= |qs| && Valid()
        invariant DecodeAll(config, View(), IdsOf(qs)[k..]) == DecodeAll(config, old(View()), IdsOf(qs))
      {
        ghost var rest := IdsOf(qs)[k..];
        var q := qs[k];
        assert Named(all, q) && rest[0] == q.seqId && rest[1..] == IdsOf(qs)[k + 1..];
        if q.numTokens != q.numCachedTokens + 1 {
          return Err(AssertionFailed);
        }
        var _ :- AppendTokens(q, 1);
        k := k + 1;
      }
      assert IdsOf(qs)[k..] == [];
      return Ok(());
    }

    // -------------------------------------------------------------- the frozen mode

    /** The set comprehension `newly_protected`. */
    method UnprotectedFree(blocks: seq<nat>, protected: set<nat>) returns (newly: set<nat>)
      ensures newly == FreeAmong(View().pool, blocks) - protected
    {
      newly := set b | b in blocks && b in blockManager.freeBlockIds && b !in protected;
    }

    /** One round of the frozen mode's admission loop: which pages and tokens to plan, if any. */
    method DecidePlan(q: Sequence, prefixes: map<nat, seq<nat>>, tokenBudget: nat, freeBudget: nat, protected: set<nat>)
      returns (r: Result<PlanDecision>)
      requires Valid() && Named(all, q)
      ensures r == PlanRound(config, View(), prefixes, q.seqId, tokenBudget, freeBudget, protected)
    {
      hide FreeAmong, Scheduler.Valid;
      NamedValid(q);
      var blocks := if q.seqId in prefixes then prefixes[q.seqId] else [];
      var cached := q.numCachedTokens + Start(|blocks|, config.B);
      if q.numTokens <= cached {
        return Err(AssertionFailed);
      }
      var remaining := q.numTokens - cached;
      var n := Min(remaining, tokenBudget);
      if (!config.chunked && remaining > tokenBudget) || n <= 0 {
        return Ok(PlanStop);
      }
      var newly := UnprotectedFree(blocks, protected);
      var cost := |newly| + Ceil(n, config.B);
      if cost > freeBudget {
        return Ok(PlanStop);
      }
      return Ok(PlanTake(Admission(q.seqId, blocks, cached + n), newly, n, cost, n < remaining));
    }

    /** The admission loop of the frozen mode; it only plans. */
    method PlanAdmissions(prefixes: map<nat, seq<nat>>, ranked: seq<Sequence>, tokens: nat, free: nat, active: nat)
      returns (r: Result<(seq<Sequence>, seq<Admission>)>)
      requires Valid() && AllNamed(all, ranked)
      ensures var spec := PlanFrozen(config, View(), prefixes, IdsOf(ranked), tokens, free, {}, active, []);
              if spec.Ok? then r.Ok? && r.value.1 == spec.value else r == Err(spec.error)
      ensures r.Ok? ==> AllNamed(all, r.value.0) && IdsOf(r.value.0) == Ids(r.value.1)
    {
      hide PlanRound, BlockHashes;
      ghost var spec := PlanFrozen(config, View(), prefixes, IdsOf(ranked), tokens, free, {}, active, []);
      var admitted: seq<Sequence> := [];
      var admission: seq<Admission> := [];
      var tokenBudget: nat, freeBudget: nat, protected: set<nat> := tokens, free, {};
      var k := 0;
      assert IdsOf(ranked)[0..] == IdsOf(ranked);
      while k < |ranked|
        invariant 0 <= k <= |ranked|
        invariant AllNamed(all, admitted) && IdsOf(admitted) == Ids(admission)
        invariant PlanFrozen(config, View(), prefixes, IdsOf(ranked)[k..], tokenBudget, freeBudget, protected, active,
                             admission) == spec
      {
        ghost var rest := IdsOf(ranked)[k..];
        var q := ranked[k];
        assert Named(all, q) && rest[0] == q.seqId && rest[1..] == IdsOf(ranked)[k + 1..];
        assert |admission| == |Ids(admission)| == |IdsOf(admitted)|;
        if active + |admitted| >= config.maxSeqs {
          return Ok((admitted, admission));
        }
        var round := DecidePlan(q, prefixes, tokenBudget, freeBudget, protected);
        if round.Err? {
          return Err(round.error);
        }
        if round.value.PlanStop? {
          return Ok((admitted, admission));
        }
        assert Ids(admission + [round.value.admission]) == Ids(admission) + [q.seqId];
        assert IdsOf(admitted + [q]) == IdsOf(admitted) + [q.seqId];
        admitted := admitted + [q];
        admission := admission + [round.value.admission];
        protected := protected + round.value.newly;
        freeBudget := freeBudget - round.value.cost;
        tokenBudget := tokenBudget - round.value.tokens;
        if round.value.partial {
          return Ok((admitted, admission));
        }
        k := k + 1;
      }
      return Ok((admitted, admission));
    }

    /** `for seq in admitted: claim_prefix` */
    method ClaimAdmissions(qs: seq<Sequence>, adm: seq<Admission>) returns (r: Result<()>)
      requires Valid() && AllNamed(all, qs) && IdsOf(qs) == Ids(adm)
      modifies blockManager, blockManager.blocks, all
      ensures Yields(r, ClaimAdmitted(config, old(View()), adm), View())
      ensures r.Ok? ==> Valid()
    {
      hide ClaimStep, ClaimAdmitted, BlockHashes;
      var k := 0;
      assert adm[0..] == adm;
      while k < |qs|
        invariant 0 <= k <= |qs| && Valid()
        invariant ClaimAdmitted(config, View(), adm[k..]) == ClaimAdmitted(config, old(View()), adm)
      {
        ghost var rest := adm[k..];
        var q := qs[k];
        assert Named(all, q) && rest[0].id == Ids(adm)[k] == IdsOf(qs)[k] == q.seqId && rest[1..] == adm[k + 1..];
        AdmittedOnce(config, View(), rest);
        var _ :- ClaimSequence(q, adm[k].blocks);
        k := k + 1;
      }
      AdmittedEnd(config, View(), adm[k..]);
      return Ok(());
    }

    method ClaimSequence(q: Sequence, blocks: seq<nat>) returns (r: Result<()>)
      requires Valid() && Named(all, q)
      modifies blockManager, blockManager.blocks, all
      ensures Yields(r, ClaimStep(config, old(View()), q.seqId, blocks), View())
      ensures r.Ok? ==> Valid()
    {
      hide ClaimPrefix, BlockHashes;
      var _ :- blockManager.ClaimPlan(q, blocks);
      OneChanged(q);
      return Ok(());
    }

    /** The allocations of the frozen mode. */
    method AllocateAdmissions(qs: seq<Sequence>, adm: seq<Admission>) returns (r: Result<()>)
      requires Valid() && AllNamed(all, qs) && IdsOf(qs) == Ids(adm)
      modifies this`waiting, blockManager, blockManager.blocks, all
      ensures Yields(r, AllocateAdmitted(config, old(View()), adm), View())
      ensures r.Ok? ==> Valid()
    {
      hide AllocateStep, AllocateAdmitted, BlockHashes;
      var k := 0;
      assert adm[0..] == adm;
      while k < |qs|
        invariant 0 <= k <= |qs| && Valid()
        invariant AllocateAdmitted(config, View(), adm[k..]) == AllocateAdmitted(config, old(View()), adm)
      {
        ghost var rest := adm[k..];
        var q := qs[k];
        assert Named(all, q) && rest[0].id == Ids(adm)[k] == IdsOf(qs)[k] == q.seqId && rest[1..] == adm[k + 1..];
        AdmittedOnce(config, View(), rest);
        if adm[k].end <= q.numCachedTokens {
          return Err(AssertionFailed);
        }
        var _ :- AllocateSequence(q, adm[k].end - q.numCachedTokens);
        k := k + 1;
      }
      AdmittedEnd(config, View(), adm[k..]);
      return Ok(());
    }

    method AllocateSequence(q: Sequence, n: nat) returns (r: Result<()>)
      requires Valid() && Named(all, q)
      modifies this`waiting, blockManager, blockManager.blocks, all
      ensures Yields(r, AllocateStep(config, old(View()), q.seqId, n), View())
      ensures r.Ok? ==> Valid()
    {
      hide AllocateNew, BlockHashes, Remove;
      q.numNewTokens := n;
      var _ :- blockManager.AllocateNewBlocks(q);
      OneChanged(q);
      StartRunning(q);
      return Ok(());
    }

    // -------------------------------------------------------------- the whole step

    /** What this step gives the resumable chunk. */
    method BudgetChunk(tokenBudget: nat, freeBudget: nat) returns (r: Result<ChunkPlan>)
      requires Valid()
      ensures r == PlanChunk(config, View(), tokenBudget, freeBudget)
    {
      if chunkedReq == null {
        return Ok(ChunkPlan(false, 0, 0, true, tokenBudget, freeBudget));
      }
      assert Named(all, chunkedReq);
      if chunkedReq.numTokens <= chunkedReq.numCachedTokens {
        return Err(AssertionFailed);
      }
      var remaining := chunkedReq.numTokens - chunkedReq.numCachedTokens;
      var n := Min(remaining, tokenBudget);
      var blocks := blockManager.CountToAppend(chunkedReq, n);
      if n == 0 || blocks > freeBudget {
        return Ok(ChunkPlan(false, 0, 0, false, tokenBudget, freeBudget));
      }
      return Ok(ChunkPlan(true, n, blocks, n == remaining, tokenBudget - n, freeBudget - blocks));
    }

    method AppendScheduledChunk(plan: ChunkPlan) returns (r: Result<()>)
      requires Valid()
      modifies blockManager, blockManager.blocks, all
      ensures Yields(r, AppendChunk(config, old(View()), plan), View())
      ensures r.Ok? ==> Valid()
    {
      hide ScheduleAppend;
      if plan.scheduled && chunkedReq != null {
        r := AppendTokens(chunkedReq, plan.tokens);
      } else {
        r := Ok(());
      }
    }

    method LookUpAndRank(plan: ChunkPlan) returns (r: Result<(map<nat, seq<nat>>, seq<Sequence>)>)
      requires Valid()
      ensures var spec := RankedWaiting(config, View(), plan);
              if spec.Ok? then r.Ok? && r.value.0 == spec.value.0 && IdsOf(r.value.1) == spec.value.1
                  else r == Err(spec.error)
      ensures r.Ok? ==> AllNamed(all, r.value.1)
    {
      hide MatchWaiting, Rank;
      if plan.allowWaiting && waiting != [] && plan.tokenBudget > 0 {
        var prefixes :- LookUpWaiting();
        var ranked := RankWaiting(prefixes);
        return Ok((prefixes, ranked));
      }
      return Ok((map[], []));
    }

    method CommitSameStepPrefills(plan: ChunkPlan, ranked: seq<Sequence>, reserved: nat)
        returns (r: Result<seq<Sequence>>)
      requires Valid() && AllNamed(all, ranked)
      modifies this`waiting, blockManager, blockManager.blocks, all
      ensures YieldsBatch(r, PrefillSameStep(config, old(View()), plan, IdsOf(ranked), reserved), View())
      ensures r.Ok? ==> Valid() && AllNamed(all, r.value)
    {
      hide AppendChunk, CommitSameStep, BlockHashes;
      var active := |running| + if chunkedReq != null then 1 else 0;
      var _ :- AppendScheduledChunk(plan);
      r := CommitWaitingSameStep(ranked, plan.tokenBudget, reserved, active);
    }

    method CommitFrozenPrefills(plan: ChunkPlan, prefixes: map<nat, seq<nat>>, ranked: seq<Sequence>)
        returns (r: Result<seq<Sequence>>)
      requires Valid() && AllNamed(all, ranked)
      modifies this`waiting, blockManager, blockManager.blocks, all
      ensures YieldsBatch(r, PrefillFrozen(config, old(View()), plan, prefixes, IdsOf(ranked)), View())
      ensures r.Ok? ==> Valid() && AllNamed(all, r.value)
    {
      hide AppendChunk, PlanFrozen, ClaimAdmitted, AllocateAdmitted, BlockHashes;
      var active := |running| + if chunkedReq != null then 1 else 0;
      var planned :- PlanAdmissions(prefixes, ranked, plan.tokenBudget, plan.freeBudget, active);
      var _ :- ClaimAdmissions(planned.0, planned.1);
      var _ :- AppendScheduledChunk(plan);
      var _ :- AllocateAdmissions(planned.0, planned.1);
      return Ok(planned.0);
    }

    /** The prefill half, in either admission mode. */
    method CommitPrefills(plan: ChunkPlan, prefixes: map<nat, seq<nat>>, ranked: seq<Sequence>, reserved: nat)
        returns (r: Result<seq<Sequence>>)
      requires Valid() && AllNamed(all, ranked)
      modifies this`waiting, blockManager, blockManager.blocks, all
      ensures YieldsBatch(r, PrefillStep(config, old(View()), StepPlan(plan, prefixes, IdsOf(ranked), reserved)),
                          View())
      ensures r.Ok? ==> Valid() && AllNamed(all, r.value)
    {
      hide PrefillSameStep, PrefillFrozen, BlockHashes;
      if config.sameStep {
        r := CommitSameStepPrefills(plan, ranked, reserved);
      } else {
        r := CommitFrozenPrefills(plan, prefixes, ranked);
      }
    }

    /** Which exception an empty batch raises. */
    method DiagnoseEmpty(prefixes: map<nat, seq<nat>>, ranked: seq<Sequence>) returns (e: Error)
      requires Valid() && AllNamed(all, ranked)
      ensures e == EmptyBatchError(config, View(), prefixes, IdsOf(ranked))
    {
      hide MatchPrefix;
      if config.chunked || ranked == [] {
        return NoProgress;
      }
      var first := ranked[0];
      assert Named(all, first) && IdsOf(ranked)[0] == first.seqId;
      var blocks: seq<nat>;
      if config.sameStep {
        var found := blockManager.FindPrefix(first);
        if found.Err? {
          return found.error;
        }
        blocks := found.value;
      } else {
        blocks := if first.seqId in prefixes then prefixes[first.seqId] else [];
      }
      return if first.numTokens - (first.numCachedTokens + Start(|blocks|, config.B)) > config.maxBatch
          then PromptTooLong else NoProgress;
    }

    /** The part of `schedule` that only looks: budgets, the chunk's share, the ranking. */
    method DecideStep() returns (r: Result<(ChunkPlan, map<nat, seq<nat>>, seq<Sequence>, nat)>)
      requires Valid()
      ensures var spec := PlanStep(config, View());
              if spec.Ok? then r.Ok? && spec.value == StepPlan(r.value.0, r.value.1, IdsOf(r.value.2), r.value.3)
                  else r == Err(spec.error)
      ensures r.Ok? ==> AllNamed(all, r.value.2)
    {
      hide SumAppend, PlanChunk, RankedWaiting;
      var decodeBlocks := CountDecodeBlocks(running);
      if |running| > config.maxBatch || decodeBlocks > |blockManager.freeBlockIds| {
        return Err(AssertionFailed);
      }
      var plan :- BudgetChunk(config.maxBatch - |running|, |blockManager.freeBlockIds| - decodeBlocks);
      var ranking :- LookUpAndRank(plan);
      return Ok((plan, ranking.0, ranking.1, decodeBlocks));
    }

    /** `schedule`, after preemption. */
    method ScheduleRest() returns (r: Result<seq<Sequence>>)
      requires Valid()
      modifies this`waiting, this`numScheduledPrefillSeqs, blockManager, blockManager.blocks, all
      ensures YieldsSchedule(r, ScheduleFrom(config, old(View())), View(), numScheduledPrefillSeqs)
      ensures r.Ok? ==> Valid() && AllNamed(all, r.value)
    {
      hide PlanStep, PrefillStep, DecodeAll, EmptyBatchError, BlockHashes, IdsOf, AllNamed, Scheduler.Valid, Named;
      QueuesNamed();
      var decodeSeqs := running;
      var decided :- DecideStep();
      var (plan, prefixes, ranked, reserved) := decided;
      var chunk: seq<Sequence> := if plan.scheduled && chunkedReq != null then [chunkedReq] else [];
      ChunkNamed(all, chunkedReq, View(), plan);
      var admitted :- CommitPrefills(plan, prefixes, ranked, reserved);
      var _ :- DecodeRunning(decodeSeqs);
      var prefillSeqs := chunk + admitted;
      var scheduled := prefillSeqs + decodeSeqs;
      BatchNamed(all, chunk, admitted, decodeSeqs);
      if scheduled == [] {
        var e := DiagnoseEmpty(prefixes, ranked);
        return Err(e);
      }
      numScheduledPrefillSeqs := |prefillSeqs|;
      return Ok(scheduled);
    }

    /** `schedule` */
    method ScheduleBatch() returns (r: Result<seq<Sequence>>)
      requires Valid()
      modifies this`waiting, this`running, this`numScheduledPrefillSeqs, blockManager, blockManager.blocks, all
      ensures YieldsSchedule(r, Schedule(config, old(View())), View(), numScheduledPrefillSeqs)
      ensures r.Ok? ==> Valid() && AllNamed(all, r.value)
    {
      hide PreemptTail, ScheduleFrom;
      numScheduledPrefillSeqs := 0;
      var _ :- PreemptDecodeTail();
      r := ScheduleRest();
    }

    // -------------------------------------------------------------- after the forward pass

    /** `_finish` */
    method FinishSequence(q: Sequence) returns (r: Result<()>)
      requires Valid() && Named(all, q)
      modifies this`chunkedReq, this`running, blockManager, blockManager.blocks, all
      ensures Yields(r, Finish(old(View()), q.seqId), View())
      ensures r.Ok? ==> Valid()
    {
      hide BlockHashes, Remove, Released, Finish;
      FinishIsRelease(View(), q.seqId);
      var _ :- ReleaseSequence(q, Finished);
      RemoveIds(all, running, q);
      SameId(all, chunkedReq, q);
      if chunkedReq == q {
        chunkedReq := null;
      }
      running := Remove(running, q);
      return Ok(());
    }

    /** One token of `postprocess`. */
    method DeliverToken(q: Sequence, t: Token) returns (r: Result<()>)
      requires Valid() && Named(all, q)
      modifies this`chunkedReq, this`running, blockManager, blockManager.blocks, all
      ensures Yields(r, Deliver(config, old(View()), q.seqId, t), View())
      ensures r.Ok? ==> Valid()
    {
      hide Finish, BlockHashes, NextHashes;
      q.AppendToken(t);
      OneChanged(q);
      if (!q.ignoreEos && t == config.eos) || q.numTokens - q.numPromptTokens >= q.maxTokens
          || q.numTokens >= config.maxLen {
        r := FinishSequence(q);
      } else {
        r := Ok(());
      }
    }

    method DeliverTokens(qs: seq<Sequence>, ts: seq<Token>) returns (r: Result<()>)
      requires Valid() && AllNamed(all, qs)
      modifies this`chunkedReq, this`running, blockManager, blockManager.blocks, all
      ensures Yields(r, DeliverAll(config, old(View()), IdsOf(qs), ts), View())
      ensures r.Ok? ==> Valid()
    {
      hide Deliver, BlockHashes;
      if |ts| != |qs| {
        return Err(AssertionFailed);
      }
      var k := 0;
      assert IdsOf(qs)[0..] == IdsOf(qs) && ts[0..] == ts;
      while k < |qs|
        invariant 0 <= k <= |qs| && Valid()
        invariant DeliverAll(config, View(), IdsOf(qs)[k..], ts[k..]) == DeliverAll(config, old(View()), IdsOf(qs), ts)
      {
        ghost var rest := IdsOf(qs)[k..];
        assert Named(all, qs[k]) && rest[0] == qs[k].seqId && rest[1..] == IdsOf(qs)[k + 1..]
               && ts[k..][1..] == ts[k + 1..];
        var _ :- DeliverToken(qs[k], ts[k]);
        k := k + 1;
      }
      assert IdsOf(qs)[k..] == [] && ts[k..] == [];
      return Ok(());
    }

    /** `num_cached_tokens += num_new_tokens` for everybody who goes on. */
    method CommitProgress(qs: seq<Sequence>)
      requires Valid() && AllNamed(all, qs)
      modifies all
      ensures Valid() && View() == CommitAll(old(View()), IdsOf(qs))
    {
      hide BlockHashes;
      var k := 0;
      assert IdsOf(qs)[0..] == IdsOf(qs);
      while k < |qs|
        invariant 0 <= k <= |qs| && Valid()
        invariant CommitAll(View(), IdsOf(qs)[k..]) == CommitAll(old(View()), IdsOf(qs))
      {
        ghost var rest := IdsOf(qs)[k..];
        assert Named(all, qs[k]) && rest[0] == qs[k].seqId && rest[1..] == IdsOf(qs)[k + 1..];
        CommitOneRequest(qs[k]);
        k := k + 1;
      }
      assert IdsOf(qs)[k..] == [];
    }

    method CommitOneRequest(q: Sequence)
      requires Valid() && Named(all, q)
      modifies q
      ensures Valid()
      ensures View() == old(View()).Put(q.seqId, old(View().pool), Commit(old(q.View())))
    {
      hide BlockHashes;
      if q.status != Finished {
        q.numCachedTokens := q.numCachedTokens + q.numNewTokens;
        q.numNewTokens := 0;
      }
      OneChanged(q);
    }

    /** Sort the prefills of the batch: back into the chunk slot, or into the running queue. */
    method SortPrefills(qs: seq<Sequence>) returns (partial: seq<Sequence>)
      requires Valid() && AllNamed(all, qs)
      modifies this`running
      ensures Valid() && AllNamed(all, partial)
      ensures IdsOf(partial) == Partial(old(View()), IdsOf(qs))
      ensures View() == old(View()).(running := Promote(old(View()), old(View().running), IdsOf(qs)))
    {
      hide BlockHashes, IdsOf, Partial, Promote;
      partial := [];
      var k := 0;
      ghost var s := View();
      SplitIds(qs, 0);
      while k < |qs|
        invariant 0 <= k <= |qs| && Valid() && AllNamed(all, partial)
        invariant Partial(s, IdsOf(qs)) == IdsOf(partial) + Partial(s, IdsOf(qs)[k..])
        invariant Promote(s, s.running, IdsOf(qs)) == Promote(s, IdsOf(running), IdsOf(qs)[k..])
      {
        var q := qs[k];
        SplitIds(qs, k);
        assert Named(all, q) && s.Get(q.seqId) == q.View();
        IdMember(all, running, q);
        SortOnce(s, IdsOf(running), IdsOf(qs)[k..]);
        IdsSnoc(partial, q);
        IdsSnoc(running, q);
        if q.status != Finished {
          if q.numCachedTokens < q.numPromptTokens {
            partial := partial + [q];
          } else if q !in running {
            running := running + [q];
          }
        }
        k := k + 1;
      }
      SortEnd(s, IdsOf(running), IdsOf(qs)[k..]);
    }

    /** `postprocess` */
    method PostprocessBatch(qs: seq<Sequence>, ts: seq<Token>, logits: seq<nat>) returns (r: Result<()>)
      requires Valid() && AllNamed(all, qs) && numScheduledPrefillSeqs <= |qs|
      requires forall k :: 0 <= k < |logits| ==> logits[k] < |qs|
      modifies this`chunkedReq, this`running, blockManager, blockManager.blocks, all
      ensures Yields(r, Postprocess(config, Batch(old(View()), IdsOf(qs), numScheduledPrefillSeqs), PickIds(qs, logits),
                                    ts), View())
      ensures r.Ok? ==> Valid()
    {
      hide Named, DeliverAll, CommitAll, Partial, Promote, BlockHashes;
      var picked := seq(|logits|, k requires 0 <= k < |logits| => qs[logits[k]]);
      assert IdsOf(picked) == PickIds(qs, logits);
      var _ :- DeliverTokens(picked, ts);
      CommitProgress(qs);
      var prefills := qs[..numScheduledPrefillSeqs];
      assert IdsOf(prefills) == IdsOf(qs)[..numScheduledPrefillSeqs];
      var partial := SortPrefills(prefills);
      if |partial| > 1 {
        return Err(AssertionFailed);
      }
      if prefills != [] {
        chunkedReq := if partial == [] then null else partial[0];
      }
      return Ok(());
    }

    /** `add` */
    method AddSequence(q: Sequence) returns (r: Result<()>)
      requires Valid() && q.Valid() && q.config == config && q.seqId == |all|
      modifies this`waiting, this`all
      ensures r.Ok? <==> |q.tokenIds| <= config.maxLen - 1
      ensures r.Ok? ==> Valid() && all == old(all) + [q]
      ensures r.Ok? ==> View() == old(View()).(reqs := old(View().reqs) + [q.View()],
                                               waiting := old(View().waiting) + [q.seqId])
    {
      if !(q.numTokens <= config.maxLen - 1) {
        return Err(AssertionFailed);
      }
      all := all + [q];
      waiting := waiting + [q];
      return Ok(());
    }
  }

  function Released(s: Sys, id: nat, status: Status): Result<Sys> {
    var v :- Deallocate(s.pool, s.Get(id));
    Ok(s.Put(id, v.0, v.1.(status := status)))
  }

  lemma PreemptIsRelease(c: Config, s: Sys, id: nat)
    ensures Preempt(c, s, id) ==
            var d := Released(s, id, Waiting);
            if d.Err? then d else Ok(d.value.(waiting := [id] + s.waiting))
  {
    hide Deallocate;
  }

  lemma FinishIsRelease(s: Sys, id: nat)
    ensures Finish(s, id) ==
            var d := Released(s, id, Finished);
            if d.Err? then d
            else Ok(d.value.(chunked := if s.chunked == Some(id) then None
                             else s.chunked, running := Remove(s.running, id)))
  {
    hide Deallocate;
  }

  /** Releasing pages neither looks at the status nor changes it. */
  lemma StatusBesidesPages(pool: Pool, r: Req, status: Status)
    ensures var d, d' := Deallocate(pool, r), Deallocate(pool, r.(status := status));
            if d.Ok? then d' == Ok((d.value.0, d.value.1.(status := status))) else d' == Err(d.error)
  {
    hide ReleasePages, CanRelease;
  }

  /** The requests whose tokens were sampled, in the order of the logits rows. */
  function PickIds(qs: seq<Sequence>, logits: seq<nat>): seq<nat>
    requires forall k :: 0 <= k < |logits| ==> logits[k] < |qs|
  {
    seq(|logits|, k requires 0 <= k < |logits| => qs[logits[k]].seqId)
  }

  lemma IdMember(all: seq<Sequence>, qs: seq<Sequence>, q: Sequence)
    requires AllNamed(all, qs) && Named(all, q)
    ensures q in qs <==> q.seqId in IdsOf(qs)
  {
    if q in qs {
      var k :| 0 <= k < |qs| && qs[k] == q;
      assert IdsOf(qs)[k] == q.seqId;
    }
    if q.seqId in IdsOf(qs) {
      var k :| 0 <= k < |qs| && IdsOf(qs)[k] == q.seqId;
      assert Named(all, qs[k]);
    }
  }

  lemma SplitIds(qs: seq<Sequence>, k: nat)
    requires k <= |qs|
    ensures k == 0 ==> IdsOf(qs)[k..] == IdsOf(qs) && IdsOf([]) == []
    ensures k < |qs| ==> IdsOf(qs)[k..] == [qs[k].seqId] + IdsOf(qs)[k + 1..]
  {
  }

  lemma IdsSnoc(qs: seq<Sequence>, q: Sequence)
    ensures IdsOf(qs + [q]) == IdsOf(qs) + [q.seqId]
  {
  }

  lemma SortOnce(s: Sys, running: seq<nat>, ids: seq<nat>)
    requires ids != []
    ensures var r := s.Get(ids[0]);
            && Partial(s, ids) == (if r.status != Finished && r.cached < r.numPrompt then [ids[0]] else [])
               + Partial(s, ids[1..])
            && Promote(s, running, ids) == Promote(s,
                 if r.status != Finished && r.cached >= r.numPrompt && ids[0] !in running then running + [ids[0]]
                     else running, ids[1..])
  {
  }

  lemma SortEnd(s: Sys, running: seq<nat>, ids: seq<nat>)
    requires ids == []
    ensures Partial(s, ids) == [] && Promote(s, running, ids) == running
  {
  }

  lemma SameId(all: seq<Sequence>, chunk: Sequence?, q: Sequence)
    requires Named(all, q) && (chunk != null ==> Named(all, chunk))
    ensures chunk == q <==> IdOf(chunk) == Some(q.seqId)
  {
  }

  lemma ChunkNamed(all: seq<Sequence>, chunk: Sequence?, s: Sys, plan: ChunkPlan)
    requires s.chunked == IdOf(chunk) && (chunk != null ==> Named(all, chunk))
    ensures var qs := if plan.scheduled && chunk != null then [chunk] else [];
            IdsOf(qs) == ChunkIds(s, plan) && AllNamed(all, qs)
  {
  }

  lemma BatchNamed(all: seq<Sequence>, chunk: seq<Sequence>, admitted: seq<Sequence>, running: seq<Sequence>)
    requires AllNamed(all, chunk) && AllNamed(all, admitted) && AllNamed(all, running)
    ensures IdsOf(chunk + admitted + running) == IdsOf(chunk) + IdsOf(admitted) + IdsOf(running)
    ensures AllNamed(all, chunk + admitted + running)
  {
  }

  /** One round of the preemption loop. */
  lemma PreemptOnce(c: Config, s: Sys)
    ensures s.running == [] || DecodeFits(c, s) ==> PreemptTail(c, s) == Ok(s)
    ensures s.running != [] && !DecodeFits(c, s) ==>
              var n := |s.running| - 1;
              var s1 := Preempt(c, s.(running := s.running[..n]), s.running[n]);
              PreemptTail(c, s) == if s1.Err? then s1 else PreemptTail(c, s1.value)
  {
    hide DecodeFits, Preempt;
  }

  ghost predicate YieldsSchedule(r: Result<seq<Sequence>>, spec: Result<Batch>, s: Sys, numPrefill: nat) {
    if spec.Ok? then r.Ok? && s == spec.value.sys && IdsOf(r.value) == spec.value.seqs
        && numPrefill == spec.value.numPrefill
    else r == Err(spec.error)
  }

  lemma AdmittedOnce(c: Config, s: Sys, adm: seq<Admission>)
    requires adm != []
    ensures ClaimAdmitted(c, s, adm) ==
            var s' := ClaimStep(c, s, adm[0].id, adm[0].blocks);
            if s'.Err? then Err(s'.error) else ClaimAdmitted(c, s'.value, adm[1..])
    ensures AllocateAdmitted(c, s, adm) ==
            if adm[0].end <= s.Get(adm[0].id).cached then Err(AssertionFailed)
            else
              var s' := AllocateStep(c, s, adm[0].id, adm[0].end - s.Get(adm[0].id).cached);
              if s'.Err? then Err(s'.error) else AllocateAdmitted(c, s'.value, adm[1..])
  {
    hide ClaimPrefix, AllocateNew;
  }

  lemma AdmittedEnd(c: Config, s: Sys, adm: seq<Admission>)
    requires adm == []
    ensures ClaimAdmitted(c, s, adm) == Ok(s) && AllocateAdmitted(c, s, adm) == Ok(s)
  {
  }

  /** As `Yields`, for an operation that also returns the requests it gave tokens to. */
  ghost predicate YieldsBatch(r: Result<seq<Sequence>>, spec: Result<(Sys, seq<nat>)>, s: Sys) {
    if spec.Ok? then r.Ok? && s == spec.value.0 && IdsOf(r.value) == spec.value.1 else r == Err(spec.error)
  }

  /** The matched pages are all different. */
  lemma MatchNoDup(c: Config, pool: Pool, r: Req)
    ensures MatchPrefix(c, pool, r).Ok? ==> NoDup(MatchPrefix(c, pool, r).value)
  {
    MatchFromNoDup(c, pool, r, |r.table|, Max(|r.table|, r.NumBlocks(c.B) - 1), []);
  }

  lemma {:induction false} MatchFromNoDup(c: Config, pool: Pool, r: Req, i: nat, stop: nat, matched: seq<nat>)
    requires NoDup(matched)
    ensures var res := MatchFrom(c, pool, r, i, stop, matched); res.Ok? ==> NoDup(res.value)
    decreases stop - i
  {
    hide Extends, BlockHash;
    if i < stop && Start(i + 1, c.B) <= |r.tokens| {
      var h := BlockHash(c, r.tokens, i);
      if h in pool.owner && pool.owner[h] !in matched {
        MatchFromNoDup(c, pool, r, i + 1, stop, matched + [pool.owner[h]]);
      }
    }
  }

  function PagesOfAdmission(c: Config, pool: Pool, r: Req, blocks: seq<nat>, n: nat): Result<(Pool, Req)> {
    var v :- ClaimPrefix(c, pool, r, blocks);
    AllocateNew(c, v.0, v.1.(newToks := n))
  }

  lemma AdmitInParts(c: Config, s: Sys, id: nat, blocks: seq<nat>, n: nat)
    ensures Admit(c, s, id, blocks, n) ==
            var w := PagesOfAdmission(c, s.pool, s.Get(id), blocks, n);
            if w.Err? then Err(w.error)
            else Ok(s.Put(id, w.value.0, w.value.1.(status := Running)).(waiting := Remove(s.waiting, id)))
  {
    hide ClaimPrefix, AllocateNew;
  }

  lemma JoinedEnds(c: Config, s: Sys, rest: Result<map<nat, seq<nat>>>, prefixes: map<nat, seq<nat>>)
    ensures Joined(rest, map[]) == rest
    ensures Joined(MatchWaiting(c, s, []), prefixes) == Ok(prefixes)
  {
    if rest.Ok? { assert rest.value + map[] == rest.value; }
    assert map[] + prefixes == prefixes;
  }

  /** What the rest of the lookups adds to those made already. */
  ghost function Joined(rest: Result<map<nat, seq<nat>>>, prefixes: map<nat, seq<nat>>): Result<map<nat, seq<nat>>> {
    if rest.Ok? then Ok(rest.value + prefixes) else rest
  }

  lemma JoinedStep(c: Config, s: Sys, ids: seq<nat>, prefixes: map<nat, seq<nat>>)
    requires ids != [] && forall x :: x in prefixes ==> MatchPrefix(c, s.pool, s.Get(x)) == Ok(prefixes[x])
    ensures var m := MatchPrefix(c, s.pool, s.Get(ids[0]));
            && (m.Err? ==> Joined(MatchWaiting(c, s, ids), prefixes) == Err(m.error))
            && (m.Ok? ==> Joined(MatchWaiting(c, s, ids), prefixes)
                          == Joined(MatchWaiting(c, s, ids[1..]), prefixes[ids[0] := m.value]))
  {
    hide MatchPrefix;
    var m := MatchPrefix(c, s.pool, s.Get(ids[0]));
    var rest := MatchWaiting(c, s, ids[1..]);
    if m.Ok? && rest.Ok? {
      assert rest.value[ids[0] := m.value] + prefixes == rest.value + prefixes[ids[0] := m.value];
    }
  }
}
