/** A step writes to no page published before it and over no token computed before it. */
module WriteSafety {
  import opened Arith
  import opened Seqs
  import opened Requests
  import opened Pages
  import opened CacheInvariant
  import opened KvMemory
  import opened Growth
  import opened Boundary
  import opened Scheduling
  import opened SchedulerState
  import opened Steps
  import opened CutFails
  import opened Addressing
  import opened BatchForward
  import opened Runs

  // ---------------------------------------------------------------- what scheduling may do to a page

  /** Generations only go up, a page in use keeps its own, and within one generation nothing is unpublished. */
  ghost predicate PageEvolves(p: Page, p': Page) {
    && p.gen <= p'.gen
    && (p.refs > 0 ==> p'.refs > 0 && p'.gen == p.gen)
    && (p'.gen == p.gen && p.Published() ==> p'.Published())
  }

  ghost predicate Evolves(pool: Pool, pool': Pool) {
    && |pool'.pages| == |pool.pages|
    && forall x: nat {:trigger pool'.pages[x]} {:trigger pool.pages[x]} ::
         x < |pool.pages| ==> PageEvolves(pool.pages[x], pool'.pages[x])
  }

  lemma EvolvesTrans(a: Pool, b: Pool, d: Pool)
    requires Evolves(a, b) && Evolves(b, d)
    ensures Evolves(a, d)
  {
    forall x: nat | x < |a.pages|
      ensures PageEvolves(a.pages[x], d.pages[x])
    {
      assert PageEvolves(a.pages[x], b.pages[x]) && PageEvolves(b.pages[x], d.pages[x]);
    }
  }

  /** Published in the first pool, and still of the same generation in the second. */
  ghost predicate OldPage(pool0: Pool, pool: Pool, x: nat) {
    x < |pool0.pages| == |pool.pages| && pool0.pages[x].Published() && pool.pages[x].gen == pool0.pages[x].gen
  }

  /** Whoever holds an old page has it completely cached: it has nothing left to write there. */
  ghost predicate HoldsOld(c: Config, pool0: Pool, pool: Pool, r: Req, i: nat)
    requires i < |r.table|
  {
    OldPage(pool0, pool, r.table[i]) ==> Start(i + 1, c.B) <= r.cached
  }

  ghost predicate ReqSince(c: Config, pool0: Pool, pool: Pool, r: Req) {
    forall i: nat {:trigger HoldsOld(c, pool0, pool, r, i)} :: i < |r.table| ==> HoldsOld(c, pool0, pool, r, i)
  }

  /** A request keeps its pages and its cached tokens; one with a started page claims nothing. */
  ghost predicate Grows(c: Config, r: Req, r': Req) {
    && r.table <= r'.table && r.cached <= r'.cached
    && (r.cached < Start(|r.table|, c.B) ==> r'.cached == r.cached)
  }

  lemma GrowsTrans(c: Config, a: Req, b: Req, d: Req)
    requires Grows(c, a, b) && Grows(c, b, d)
    ensures Grows(c, a, d)
  {
    StartMono(|a.table|, |b.table|, c.B);
  }

  /** One operation on one request. */
  ghost predicate Since(c: Config, pool0: Pool, pool: Pool, r: Req, pool': Pool, r': Req) {
    Evolves(pool, pool') && ReqSince(c, pool0, pool', r') && Grows(c, r, r')
  }

  lemma SinceTrans(c: Config, pool0: Pool, pool: Pool, r: Req, pool1: Pool, r1: Req, pool2: Pool, r2: Req)
    requires Since(c, pool0, pool, r, pool1, r1) && Since(c, pool0, pool1, r1, pool2, r2)
    ensures Since(c, pool0, pool, r, pool2, r2)
  {
    hide Evolves, ReqSince;
    EvolvesTrans(pool, pool1, pool2);
    GrowsTrans(c, r, r1, r2);
  }

  /** What others do to the pool makes no page of this request old. */
  lemma ReqSinceFrame(c: Config, pool0: Pool, pool: Pool, pool': Pool, r: Req)
    requires Evolves(pool0, pool) && Evolves(pool, pool') && ReqSince(c, pool0, pool, r)
    ensures ReqSince(c, pool0, pool', r)
  {
    forall i: nat | i < |r.table|
      ensures HoldsOld(c, pool0, pool', r, i)
    {
      assert HoldsOld(c, pool0, pool, r, i);
      var x := r.table[i];
      if OldPage(pool0, pool', x) {
        assert PageEvolves(pool0.pages[x], pool.pages[x]) && PageEvolves(pool.pages[x], pool'.pages[x]);
      }
    }
  }

  // ---------------------------------------------------------------- the operations on pages

  lemma TakeEvolves(pool: Pool)
    requires TakeFront(pool).Ok?
    ensures var (pool', b) := TakeFront(pool).value;
            && Evolves(pool, pool') && b < |pool.pages| && pool'.pages[b].gen == pool.pages[b].gen + 1
            && pool'.pages[b].hash == -1
  {
  }

  lemma PublishEvolves(pool: Pool, b: nat, h: int, tokens: seq<Token>, parent: Lineage)
    requires b < |pool.pages| && h >= 0
    ensures Evolves(pool, Publish(pool, b, h, tokens, parent))
  {
    hide CanonicalLineage;
  }

  /** The table gains at most one page, a fresh one. */
  lemma ExtendSince(c: Config, pool0: Pool, pool: Pool, pool': Pool, r: Req, r': Req)
    requires Evolves(pool0, pool) && Evolves(pool, pool') && ReqSince(c, pool0, pool, r) && r'.cached == r.cached
    requires r'.table == r.table || (r'.table != [] && r'.table[..|r'.table| - 1] == r.table
                                     && Fresh(pool, pool', r'.table[|r'.table| - 1]))
    ensures Since(c, pool0, pool, r, pool', r')
  {
    ReqSinceFrame(c, pool0, pool, pool', r);
    forall i: nat | i < |r'.table|
      ensures HoldsOld(c, pool0, pool', r', i)
    {
      if i < |r.table| {
        assert r'.table[i] == r.table[i];
        assert HoldsOld(c, pool0, pool', r, i);
      } else {
        var x := r'.table[i];
        assert PageEvolves(pool0.pages[x], pool.pages[x]);
      }
    }
  }

  ghost predicate Fresh(pool: Pool, pool': Pool, b: nat) {
    b < |pool.pages| == |pool'.pages| && pool'.pages[b].gen > pool.pages[b].gen
  }

  lemma GrowStepSince(c: Config, pool0: Pool, pool: Pool, r: Req, end: nat)
    requires r.Context() < end || (r.Context() == end && Start(end / c.B, c.B) < end)
    requires Evolves(pool0, pool) && ReqSince(c, pool0, pool, r)
    ensures var res := GrowStep(c, pool, r, end); res.Ok? ==> Since(c, pool0, pool, r, res.value.0, res.value.1)
  {
    hide Publish, BlockHash, Evolves, ReqSince, Since, Start;
    var res := GrowStep(c, pool, r, end);
    if res.Ok? {
      var i := r.Context() / c.B;
      var (pool1, b) := if i < |r.table| then (pool, r.table[i]) else TakeFront(pool).value;
      if i < |r.table| {
        EvolvesSelf(pool);
      } else {
        TakeEvolves(pool);
        assert (r.table + [b])[..|r.table|] == r.table;
      }
      var next := Start(i + 1, c.B);
      if next <= end && next <= |r.tokens| {
        PublishEvolves(pool1, b, BlockHash(c, r.tokens, i), r.Block(i, c.B),
                       LineageOf(pool.pages, Before(r.table, i)).value);
        EvolvesTrans(pool, pool1, res.value.0);
        PublishKeepsGen(pool1, b, BlockHash(c, r.tokens, i), r.Block(i, c.B),
                        LineageOf(pool.pages, Before(r.table, i)).value);
      }
      EvolvesLength(pool, res.value.0);
      ExtendSince(c, pool0, pool, res.value.0, r, res.value.1);
    }
  }

  lemma EvolvesSelf(pool: Pool)
    ensures Evolves(pool, pool)
  {
  }

  lemma EvolvesLength(pool: Pool, pool': Pool)
    requires Evolves(pool, pool')
    ensures |pool'.pages| == |pool.pages|
  {
  }

  lemma PublishKeepsGen(pool: Pool, b: nat, h: int, tokens: seq<Token>, parent: Lineage)
    requires b < |pool.pages|
    ensures |Publish(pool, b, h, tokens, parent).pages| == |pool.pages|
            && Publish(pool, b, h, tokens, parent).pages[b].gen == pool.pages[b].gen
  {
  }

  lemma SinceSelf(c: Config, pool0: Pool, pool: Pool, r: Req, r': Req)
    requires ReqSince(c, pool0, pool, r) && r'.table == r.table && r'.cached == r.cached
    ensures Since(c, pool0, pool, r, pool, r')
  {
    forall i: nat | i < |r'.table|
      ensures HoldsOld(c, pool0, pool, r', i)
    {
      assert HoldsOld(c, pool0, pool, r, i);
    }
  }

  lemma {:induction false} GrowSince(c: Config, pool0: Pool, pool: Pool, r: Req, end: nat)
    requires Evolves(pool0, pool) && ReqSince(c, pool0, pool, r)
    ensures var res := Grow(c, pool, r, end); res.Ok? ==> Since(c, pool0, pool, r, res.value.0, res.value.1)
    decreases end - r.Context()
  {
    hide GrowStep, Evolves, ReqSince, Grows;
    if r.Context() >= end {
      SinceSelf(c, pool0, pool, r, r);
    } else {
      var step := GrowStep(c, pool, r, end);
      if step.Ok? {
        GrowStepSince(c, pool0, pool, r, end);
        GrowStepAsserts(c, pool, r, end);
        EvolvesTrans(pool0, pool, step.value.0);
        GrowSince(c, pool0, step.value.0, step.value.1, end);
        var res := Grow(c, step.value.0, step.value.1, end);
        if res.Ok? {
          SinceTrans(c, pool0, pool, r, step.value.0, step.value.1, res.value.0, res.value.1);
        }
      }
    }
  }

  lemma ClaimPageSince(c: Config, pool0: Pool, pool: Pool, r: Req, b: nat)
    requires Evolves(pool0, pool) && ReqSince(c, pool0, pool, r) && b < |pool.pages|
             && r.cached == Start(|r.table|, c.B)
    ensures Since(c, pool0, pool, r, ClaimPage(pool, b), r.(table := r.table + [b], cached := r.cached + c.B))
  {
    var pool' := ClaimPage(pool, b);
    var r' := r.(table := r.table + [b], cached := r.cached + c.B);
    ReqSinceFrame(c, pool0, pool, pool', r);
    forall i: nat | i < |r'.table|
      ensures HoldsOld(c, pool0, pool', r', i)
    {
      if i < |r.table| {
        assert r'.table[i] == r.table[i];
        assert HoldsOld(c, pool0, pool', r, i);
      }
    }
  }

  lemma {:induction false} ClaimPagesSince(c: Config, pool0: Pool, pool: Pool, r: Req, ids: seq<nat>)
    requires Evolves(pool0, pool) && ReqSince(c, pool0, pool, r) && AllBelow(ids, |pool.pages|)
             && r.cached == Start(|r.table|, c.B)
    ensures var v := ClaimPages(c, pool, r, ids); Since(c, pool0, pool, r, v.0, v.1)
    decreases |ids|
  {
    hide Evolves, ReqSince, Grows;
    if ids == [] {
      SinceSelf(c, pool0, pool, r, r);
    } else {
      ClaimPageSince(c, pool0, pool, r, ids[0]);
      var pool1 := ClaimPage(pool, ids[0]);
      var r1 := r.(table := r.table + [ids[0]], cached := r.cached + c.B);
      EvolvesTrans(pool0, pool, pool1);
      ClaimPagesSince(c, pool0, pool1, r1, ids[1..]);
      var v := ClaimPages(c, pool1, r1, ids[1..]);
      SinceTrans(c, pool0, pool, r, pool1, r1, v.0, v.1);
    }
  }

  /** Every operation the scheduler uses on pages, whatever else it does. */
  lemma PagesSince(c: Config, pool0: Pool, pool: Pool, r: Req, n: nat, ids: seq<nat>)
    requires Evolves(pool0, pool) && ReqSince(c, pool0, pool, r)
    ensures var res := ClaimPrefix(c, pool, r, ids); res.Ok? ==> Since(c, pool0, pool, r, res.value.0, res.value.1)
    ensures var res := AllocateNew(c, pool, r.(newToks := n));
            res.Ok? ==> Since(c, pool0, pool, r, res.value.0, res.value.1)
    ensures var res := MayAppend(c, pool, r.(newToks := n));
            res.Ok? ==> Since(c, pool0, pool, r, res.value.0, res.value.1)
  {
    hide Evolves, ReqSince, Grow, GrowStep, ClaimPages, PlanError, ClaimedPageValid;
    var r' := r.(newToks := n);
    var r0 := r'.(newToks := 0);
    SinceSelf(c, pool0, pool, r, r');
    SinceSelf(c, pool0, pool, r, r0);
    if ClaimPrefix(c, pool, r, ids).Ok? {
      ClaimPagesSince(c, pool0, pool, r, ids);
    }
    GrowSince(c, pool0, pool, r0, r'.Context());
    if n == 0 && Start(r.cached / c.B, c.B) < r.cached {
      GrowStepSince(c, pool0, pool, r', r.cached);
    }
  }

  // ---------------------------------------------------------------- the steps of the scheduler

  ghost predicate ReqAt(c: Config, s0: Sys, s: Sys, id: nat)
    requires id < |s0.reqs| == |s.reqs|
  {
    ReqSince(c, s0.pool, s.pool, s.reqs[id]) && Grows(c, s0.reqs[id], s.reqs[id])
  }

  ghost predicate SysSince(c: Config, s0: Sys, s: Sys) {
    && Evolves(s0.pool, s.pool) && |s.reqs| == |s0.reqs|
    && forall id: nat {:trigger ReqAt(c, s0, s, id)} :: id < |s0.reqs| ==> ReqAt(c, s0, s, id)
  }

  /** An operation on one request, and whatever happens to the queues. */
  lemma PutSince(c: Config, s0: Sys, s: Sys, s': Sys, id: nat, pool': Pool, r': Req)
    requires SysSince(c, s0, s) && Since(c, s0.pool, s.pool, s.Get(id), pool', r')
    requires s'.pool == pool' && s'.reqs == s.Put(id, pool', r').reqs
    ensures SysSince(c, s0, s')
  {
    hide Evolves, ReqSince, Grows;
    EvolvesTrans(s0.pool, s.pool, pool');
    forall x: nat | x < |s0.reqs|
      ensures ReqAt(c, s0, s', x)
    {
      assert ReqAt(c, s0, s, x);
      if x == id {
        GrowsTrans(c, s0.reqs[x], s.reqs[x], r');
      } else {
        ReqSinceFrame(c, s0.pool, s.pool, pool', s.reqs[x]);
      }
    }
  }

  lemma GetSince(c: Config, s0: Sys, s: Sys, id: nat)
    requires SysSince(c, s0, s)
    ensures Evolves(s0.pool, s.pool) && ReqSince(c, s0.pool, s.pool, s.Get(id))
  {
    if id < |s.reqs| { assert ReqAt(c, s0, s, id); }
  }

  /** Statuses play no part. */
  lemma StatusSince(c: Config, pool0: Pool, pool: Pool, r: Req, pool': Pool, r': Req, st: Status)
    requires Since(c, pool0, pool, r, pool', r')
    ensures Since(c, pool0, pool, r, pool', r'.(status := st))
  {
    hide Evolves;
    forall i: nat | i < |r'.table|
      ensures HoldsOld(c, pool0, pool', r'.(status := st), i)
    {
      assert HoldsOld(c, pool0, pool', r', i);
    }
  }

  lemma AppendSince(c: Config, s0: Sys, s: Sys, id: nat, n: nat)
    requires SysSince(c, s0, s)
    ensures ScheduleAppend(c, s, id, n).Ok? ==> SysSince(c, s0, ScheduleAppend(c, s, id, n).value)
  {
    hide SysSince, Since, Evolves, ReqSince, MayAppend, ClaimPrefix, AllocateNew;
    GetSince(c, s0, s, id);
    PagesSince(c, s0.pool, s.pool, s.Get(id), n, []);
    var v := MayAppend(c, s.pool, s.Get(id).(newToks := n));
    if v.Ok? {
      PutSince(c, s0, s, s.Put(id, v.value.0, v.value.1), id, v.value.0, v.value.1);
    }
  }

  lemma ClaimSince(c: Config, s0: Sys, s: Sys, id: nat, ids: seq<nat>)
    requires SysSince(c, s0, s)
    ensures ClaimStep(c, s, id, ids).Ok? ==> SysSince(c, s0, ClaimStep(c, s, id, ids).value)
  {
    hide SysSince, Since, Evolves, ReqSince, MayAppend, ClaimPrefix, AllocateNew;
    GetSince(c, s0, s, id);
    PagesSince(c, s0.pool, s.pool, s.Get(id), 0, ids);
    var v := ClaimPrefix(c, s.pool, s.Get(id), ids);
    if v.Ok? {
      PutSince(c, s0, s, s.Put(id, v.value.0, v.value.1), id, v.value.0, v.value.1);
    }
  }

  lemma AllocateSince(c: Config, s0: Sys, s: Sys, id: nat, n: nat)
    requires SysSince(c, s0, s)
    ensures AllocateStep(c, s, id, n).Ok? ==> SysSince(c, s0, AllocateStep(c, s, id, n).value)
  {
    hide SysSince, Since, Evolves, ReqSince, MayAppend, ClaimPrefix, AllocateNew, Remove;
    GetSince(c, s0, s, id);
    PagesSince(c, s0.pool, s.pool, s.Get(id), n, []);
    var v := AllocateNew(c, s.pool, s.Get(id).(newToks := n));
    if v.Ok? {
      var r' := v.value.1.(status := Running);
      StatusSince(c, s0.pool, s.pool, s.Get(id), v.value.0, v.value.1, Running);
      PutSince(c, s0, s, AllocateStep(c, s, id, n).value, id, v.value.0, r');
    }
  }

  lemma AdmitSince(c: Config, s0: Sys, s: Sys, id: nat, ids: seq<nat>, n: nat)
    requires SysSince(c, s0, s)
    ensures Admit(c, s, id, ids, n).Ok? ==> SysSince(c, s0, Admit(c, s, id, ids, n).value)
  {
    hide SysSince, Since, Evolves, ReqSince, MayAppend, ClaimPrefix, AllocateNew, Remove;
    GetSince(c, s0, s, id);
    PagesSince(c, s0.pool, s.pool, s.Get(id), n, ids);
    var v := ClaimPrefix(c, s.pool, s.Get(id), ids);
    if v.Ok? {
      SinceParts(c, s0.pool, s.pool, s.Get(id), v.value.0, v.value.1);
      EvolvesTrans(s0.pool, s.pool, v.value.0);
      PagesSince(c, s0.pool, v.value.0, v.value.1, n, []);
      var w := AllocateNew(c, v.value.0, v.value.1.(newToks := n));
      if w.Ok? {
        SinceTrans(c, s0.pool, s.pool, s.Get(id), v.value.0, v.value.1, w.value.0, w.value.1);
        StatusSince(c, s0.pool, s.pool, s.Get(id), w.value.0, w.value.1, Running);
        PutSince(c, s0, s, Admit(c, s, id, ids, n).value, id, w.value.0, w.value.1.(status := Running));
      }
    }
  }

  lemma SinceParts(c: Config, pool0: Pool, pool: Pool, r: Req, pool': Pool, r': Req)
    requires Since(c, pool0, pool, r, pool', r')
    ensures Evolves(pool, pool') && ReqSince(c, pool0, pool', r')
  {
  }

  lemma {:induction false} CommitSince(c: Config, s0: Sys, s: Sys, ranked: seq<nat>, budget: nat, reserved: nat,
                                       active: nat,
                                        committed: seq<nat>)
    requires SysSince(c, s0, s)
    ensures var res := CommitSameStep(c, s, ranked, budget, reserved, active, committed);
            res.Ok? ==> SysSince(c, s0, res.value.0)
    decreases |ranked|
  {
    hide SysSince, Decide, Admit;
    if ranked != [] {
      var d := Decide(c, s, ranked[0], budget, reserved);
      if d.Ok? && d.value.Take? {
        AdmitSince(c, s0, s, ranked[0], d.value.blocks, d.value.tokens);
        var s' := Admit(c, s, ranked[0], d.value.blocks, d.value.tokens);
        if s'.Ok? {
          CommitSince(c, s0, s'.value, ranked[1..], budget - d.value.tokens, reserved, active, committed + [ranked[0]]);
        }
      }
    }
  }

  lemma {:induction false} AdmittedSince(c: Config, s0: Sys, s: Sys, adm: seq<Admission>)
    requires SysSince(c, s0, s)
    ensures ClaimAdmitted(c, s, adm).Ok? ==> SysSince(c, s0, ClaimAdmitted(c, s, adm).value)
    ensures AllocateAdmitted(c, s, adm).Ok? ==> SysSince(c, s0, AllocateAdmitted(c, s, adm).value)
    decreases |adm|
  {
    hide SysSince, ClaimStep, AllocateStep;
    if adm != [] {
      var a := adm[0];
      ClaimSince(c, s0, s, a.id, a.blocks);
      var s1 := ClaimStep(c, s, a.id, a.blocks);
      if s1.Ok? {
        AdmittedSince(c, s0, s1.value, adm[1..]);
      }
      if a.end > s.Get(a.id).cached {
        AllocateSince(c, s0, s, a.id, a.end - s.Get(a.id).cached);
        var s2 := AllocateStep(c, s, a.id, a.end - s.Get(a.id).cached);
        if s2.Ok? {
          AdmittedSince(c, s0, s2.value, adm[1..]);
        }
      }
    }
  }

  lemma {:induction false} DecodeSince(c: Config, s0: Sys, s: Sys, ids: seq<nat>)
    requires SysSince(c, s0, s)
    ensures DecodeAll(c, s, ids).Ok? ==> SysSince(c, s0, DecodeAll(c, s, ids).value)
    decreases |ids|
  {
    hide SysSince, ScheduleAppend;
    if ids != [] {
      AppendSince(c, s0, s, ids[0], 1);
      if ScheduleAppend(c, s, ids[0], 1).Ok? {
        DecodeSince(c, s0, ScheduleAppend(c, s, ids[0], 1).value, ids[1..]);
      }
    }
  }

  lemma ChunkSince(c: Config, s0: Sys, s: Sys, plan: ChunkPlan)
    requires SysSince(c, s0, s)
    ensures AppendChunk(c, s, plan).Ok? ==> SysSince(c, s0, AppendChunk(c, s, plan).value)
  {
    hide SysSince, ScheduleAppend;
    if s.chunked.Some? {
      AppendSince(c, s0, s, s.chunked.value, plan.tokens);
    }
  }

  lemma PrefillSince(c: Config, s0: Sys, s: Sys, p: StepPlan)
    requires SysSince(c, s0, s)
    ensures PrefillStep(c, s, p).Ok? ==> SysSince(c, s0, PrefillStep(c, s, p).value.0)
  {
    hide SysSince, CommitSameStep, PlanFrozen, ClaimAdmitted, AllocateAdmitted, AppendChunk;
    if c.sameStep {
      ChunkSince(c, s0, s, p.chunk);
      if AppendChunk(c, s, p.chunk).Ok? {
        CommitSince(c, s0, AppendChunk(c, s, p.chunk).value, p.ranked, p.chunk.tokenBudget, p.reserved, s.Live(), []);
      }
    } else {
      var adm := PlanFrozen(c, s, p.prefixes, p.ranked, p.chunk.tokenBudget, p.chunk.freeBudget, {}, s.Live(), []);
      if adm.Ok? {
        AdmittedSince(c, s0, s, adm.value);
        var s1 := ClaimAdmitted(c, s, adm.value);
        if s1.Ok? {
          ChunkSince(c, s0, s1.value, p.chunk);
          var s2 := AppendChunk(c, s1.value, p.chunk);
          if s2.Ok? {
            AdmittedSince(c, s0, s2.value, adm.value);
          }
        }
      }
    }
  }

  lemma ScheduleSince(c: Config, s: Sys)
    requires SysSince(c, s, s)
    ensures ScheduleFrom(c, s).Ok? ==> SysSince(c, s, ScheduleFrom(c, s).value.sys)
  {
    hide SysSince, PlanStep, PrefillStep, DecodeAll;
    if PlanStep(c, s).Ok? {
      var p := PlanStep(c, s).value;
      PrefillSince(c, s, s, p);
      if PrefillStep(c, s, p).Ok? {
        DecodeSince(c, s, PrefillStep(c, s, p).value.0, s.running);
      }
    }
  }

  // ---------------------------------------------------------------- what a batch writes

  /** At rest nobody has anything to write on a published page. */
  lemma RestSince(c: Config, s: Sys, led: Ledger, kv: Memory)
    requires AtRest(c, s, led, kv)
    ensures SysSince(c, s, s)
  {
    forall id: nat | id < |s.reqs|
      ensures ReqAt(c, s, s, id)
    {
      assert Progress(s, id) && Aligned(c, s.pool.pages, s.reqs[id]);
      forall i: nat | i < |s.reqs[id].table|
        ensures HoldsOld(c, s.pool, s.pool, s.reqs[id], i)
      {
        AlignedEntry(c, s.pool.pages, s.reqs[id], i);
      }
    }
  }

  /** A pending write never goes to an old page. */
  lemma OldUnwritten(c: Config, s0: Sys, s: Sys, x: nat, o: nat)
    requires SysSince(c, s0, s) && OldPage(s0.pool, s.pool, x) && o < c.B
    ensures !Pending(c, s.reqs, x, o)
  {
    forall id: nat | id < |s.reqs|
      ensures !Writes(c, s.reqs[id], x, o)
    {
      assert ReqAt(c, s0, s, id);
      forall i: nat | i < |s.reqs[id].table| && s.reqs[id].table[i] == x
        ensures Start(i + 1, c.B) <= s.reqs[id].cached
      {
        assert HoldsOld(c, s0.pool, s.pool, s.reqs[id], i);
      }
    }
  }

  /** Whoever holds the page of a computed token has that offset cached itself. */
  lemma HolderPast(c: Config, s0: Sys, s: Sys, led0: Ledger, led: Ledger, kv: Memory, id: nat, i: nat, o: nat, y: nat,
                   j: nat)
    requires AtRest(c, s0, led0, kv) && SysSince(c, s0, s) && World(c, s.pool, s.reqs, led)
    requires id < |s0.reqs| && i < |s0.reqs[id].table| && o < c.B && Start(i, c.B) + o < s0.reqs[id].cached
    requires y < |s.reqs| && j < |s.reqs[y].table| && s.reqs[y].table[j] == s0.reqs[id].table[i]
    ensures Start(j, c.B) + o < s.reqs[y].cached
  {
    hide Evolves, Nearly, World;
    assert ReqAt(c, s0, s, id) && ReqAt(c, s0, s, y);
    assert s.reqs[id].table[i] == s0.reqs[id].table[i];
    if y == id {
      TableDistinct(c, s, led, id, i, j);
    } else {
      SharedIsFull(c, s, led, id, i, y, j);
      if Start(i + 1, c.B) <= s0.reqs[id].cached {
        FullIsOld(c, s0, s, led0, kv, id, i);
        assert HoldsOld(c, s0.pool, s.pool, s.reqs[y], j);
      } else {
        StartMono(i + 1, |s0.reqs[id].table|, c.B);
      }
    }
  }

  /** A request's own cached position keeps its slot, and nobody has a write pending there. */
  lemma CachedUnwritten(c: Config, s0: Sys, s: Sys, led0: Ledger, led: Ledger, kv: Memory, id: nat, i: nat, o: nat)
    requires AtRest(c, s0, led0, kv) && SysSince(c, s0, s) && World(c, s.pool, s.reqs, led)
    requires id < |s0.reqs| && i < |s0.reqs[id].table| && o < c.B && Start(i, c.B) + o < s0.reqs[id].cached
    ensures i < |s.reqs[id].table| && s.reqs[id].table[i] == s0.reqs[id].table[i]
    ensures !Pending(c, s.reqs, s0.reqs[id].table[i], o)
  {
    hide Evolves, ReqSince, AtRest, World;
    assert ReqAt(c, s0, s, id);
    forall y: nat | y < |s.reqs|
      ensures !Writes(c, s.reqs[y], s0.reqs[id].table[i], o)
    {
      forall j: nat | j < |s.reqs[y].table| && s.reqs[y].table[j] == s0.reqs[id].table[i]
        ensures Start(j, c.B) + o < s.reqs[y].cached
      {
        HolderPast(c, s0, s, led0, led, kv, id, i, o, y, j);
      }
    }
  }

  lemma TableDistinct(c: Config, s: Sys, led: Ledger, id: nat, i: nat, j: nat)
    requires World(c, s.pool, s.reqs, led) && id < |s.reqs| && i < |s.reqs[id].table| && j < |s.reqs[id].table|
    ensures s.reqs[id].table[i] == s.reqs[id].table[j] ==> i == j
  {
    assert TableOk(c, s.pool.pages, led, s.reqs[id]);
  }

  lemma SharedIsFull(c: Config, s: Sys, led: Ledger, id: nat, i: nat, y: nat, j: nat)
    requires World(c, s.pool, s.reqs, led) && id < |s.reqs| && y < |s.reqs| && id != y
    requires i < |s.reqs[id].table| && j < |s.reqs[y].table| && s.reqs[id].table[i] == s.reqs[y].table[j]
    ensures Start(i + 1, c.B) <= s.reqs[id].cached || Start(j + 1, c.B) <= s.reqs[y].cached
  {
    assert Share(c, s.reqs[id], s.reqs[y]);
  }

  /** A page that a request has cached completely is published, and its generation is safe while the request holds
      it. */
  lemma FullIsOld(c: Config, s0: Sys, s: Sys, led0: Ledger, kv: Memory, id: nat, i: nat)
    requires AtRest(c, s0, led0, kv) && Evolves(s0.pool, s.pool)
    requires id < |s0.reqs| && i < |s0.reqs[id].table| && Start(i + 1, c.B) <= s0.reqs[id].cached
    ensures OldPage(s0.pool, s.pool, s0.reqs[id].table[i])
  {
    hide KvComplete, Queues;
    var x := s0.reqs[id].table[i];
    assert TableOk(c, s0.pool.pages, led0, s0.reqs[id]);
    assert EntryOk(c, s0.pool.pages, led0, s0.reqs[id], i);
    assert RefOk(s0.pool, s0.reqs, x);
    assert id in Users(s0.reqs, x);
    assert PageEvolves(s0.pool.pages[x], s.pool.pages[x]);
  }

  // ---------------------------------------------------------------- from the engine's state

  lemma {:induction false} ReleaseKeepsPages(pool: Pool, table: seq<nat>)
    requires AllBelow(table, |pool.pages|)
    ensures SameIdentities(pool.pages, ReleasePages(pool, table).pages) && ReleasePages(pool, table).owner == pool.owner
    decreases |table|
  {
    if table != [] {
      var b := table[|table| - 1];
      var pool1 := ReleasePage(pool, b);
      ReleaseKeepsPages(pool1, table[..|table| - 1]);
      var pool2 := ReleasePages(pool1, table[..|table| - 1]);
      forall x: nat | x < |pool.pages|
        ensures pool2.pages[x].(refs := 0) == pool.pages[x].(refs := 0)
      {
        assert pool2.pages[x].(refs := 0) == pool1.pages[x].(refs := 0);
      }
    }
  }

  /** Preemption changes neither a page's identity nor the hash map. */
  lemma {:induction false} PreemptKeepsPages(c: Config, s: Sys)
    ensures PreemptTail(c, s).Ok? ==>
              && SameIdentities(s.pool.pages, PreemptTail(c, s).value.pool.pages)
              && PreemptTail(c, s).value.pool.owner == s.pool.owner
    decreases |s.running|
  {
    hide DecodeFits, ReleasePages, CanRelease;
    if s.running != [] && !DecodeFits(c, s) {
      var n := |s.running| - 1;
      var s1 := Preempt(c, s.(running := s.running[..n]), s.running[n]);
      if s1.Ok? {
        ReleaseKeepsPages(s.pool, s.Get(s.running[n]).table);
        PreemptKeepsPages(c, s1.value);
        var s2 := PreemptTail(c, s1.value);
        forall x: nat | s2.Ok? && x < |s.pool.pages|
          ensures s2.value.pool.pages[x].(refs := 0) == s.pool.pages[x].(refs := 0)
        {
          assert s2.value.pool.pages[x].(refs := 0) == s1.value.pool.pages[x].(refs := 0);
        }
      }
    }
  }

  lemma ScheduledSince(c: Config, s: Sys, led: Ledger, kv: Memory, b: Batch) returns (led': Ledger)
    requires Steppable(c, s, led, kv) && Schedule(c, s) == Ok(b)
    ensures var s0 := AfterPreemption(c, s);
            AtRest(c, s0, led, kv) && SysSince(c, s0, b.sys) && SameIdentities(s.pool.pages, s0.pool.pages)
    ensures World(c, b.sys.pool, b.sys.reqs, led') && HoldsAllNew(c, b.sys.reqs, b.seqs)
  {
    hide AtRest, Nearly, SysSince, ScheduleFrom, Scheduled, World, DecodeFits;
    PreemptKeepsPages(c, s);
    PreemptionKeepsRequests(c, s, led, kv);
    var s0 := AfterPreemption(c, s);
    RestSince(c, s0, led, kv);
    ScheduleSince(c, s0);
    var m;
    led', m := ScheduleFromOk(c, s0, led, kv);
    ScheduledHoldsAllNew(c, s0, b, led', led, kv);
    ScheduledWorld(c, s0, b, led', kv);
  }

  lemma ScheduledWorld(c: Config, s0: Sys, b: Batch, led: Ledger, kv: Memory)
    requires Scheduled(c, s0, b, led, kv)
    ensures World(c, b.sys.pool, b.sys.reqs, led)
  {
  }

  lemma WriteElsewhere(c: Config, reqs: seq<Req>, ids: seq<nat>, n: nat, x: nat, o: nat)
    requires HoldsAllNew(c, reqs, ids) && n < |BatchWrites(c, reqs, ids)| && o < c.B && !Pending(c, reqs, x, o)
    ensures BatchWrites(c, reqs, ids)[n].slot != Slot(c, x, o)
  {
    PlacesGood(c, reqs, ids);
    WriteIsPending(c, reqs, BatchPlaces(reqs, ids)[n], x, o);
  }

  /** No write of a step goes to a page that was published before the step, unless the step
      itself has evicted it and opened a new generation. */
  lemma OldPagesKept(c: Config, s: Sys, led: Ledger, kv: Memory, b: Batch, n: nat, x: nat, o: nat)
    requires Steppable(c, s, led, kv) && Schedule(c, s) == Ok(b) && o < c.B
    requires x < |s.pool.pages| == |b.sys.pool.pages|
    requires s.pool.pages[x].Published() && b.sys.pool.pages[x].gen == s.pool.pages[x].gen
    ensures HoldsAllNew(c, b.sys.reqs, b.seqs)
    ensures n < |BatchWrites(c, b.sys.reqs, b.seqs)| ==> BatchWrites(c, b.sys.reqs, b.seqs)[n].slot != Slot(c, x, o)
  {
    hide Steppable, Schedule, AtRest, SysSince, World, HoldsAllNew, BatchWrites, Pending;
    var led' := ScheduledSince(c, s, led, kv, b);
    var s0 := AfterPreemption(c, s);
    assert s0.pool.pages[x].(refs := 0) == s.pool.pages[x].(refs := 0);
    OldUnwritten(c, s0, b.sys, x, o);
    if n < |BatchWrites(c, b.sys.reqs, b.seqs)| {
      WriteElsewhere(c, b.sys.reqs, b.seqs, n, x, o);
    }
  }

  /** And none goes to a token that was computed before the step, of any request that still has its pages: its slot is
      the same in the scheduled table, and it is not among the slots written. */
  lemma ComputedTokensKept(c: Config, s: Sys, led: Ledger, kv: Memory, b: Batch, n: nat, id: nat, p: nat)
    requires Steppable(c, s, led, kv) && Schedule(c, s) == Ok(b)
    requires id < |AfterPreemption(c, s).reqs| && p < AfterPreemption(c, s).reqs[id].cached
    ensures var r0 := AfterPreemption(c, s).reqs[id];
            && p / c.B < |r0.table| && id < |b.sys.reqs| && p / c.B < |b.sys.reqs[id].table|
            && SlotOf(c, b.sys.reqs[id], p) == SlotOf(c, r0, p)
            && HoldsAllNew(c, b.sys.reqs, b.seqs)
            && (n < |BatchWrites(c, b.sys.reqs, b.seqs)|
                ==> BatchWrites(c, b.sys.reqs, b.seqs)[n].slot != SlotOf(c, r0, p))
  {
    hide Steppable, Schedule, AtRest, SysSince, World, HoldsAllNew, BatchWrites, Pending;
    var led' := ScheduledSince(c, s, led, kv, b);
    var s0 := AfterPreemption(c, s);
    RestPosition(c, s0, led, kv, id, p);
    SinceLength(c, s0, b.sys);
    CachedUnwritten(c, s0, b.sys, led, led', kv, id, p / c.B, p % c.B);
    if n < |BatchWrites(c, b.sys.reqs, b.seqs)| {
      WriteElsewhere(c, b.sys.reqs, b.seqs, n, s0.reqs[id].table[p / c.B], p % c.B);
    }
  }

  lemma SinceLength(c: Config, s0: Sys, s: Sys)
    requires SysSince(c, s0, s)
    ensures |s.reqs| == |s0.reqs|
  {
  }

  lemma RestPosition(c: Config, s: Sys, led: Ledger, kv: Memory, id: nat, p: nat)
    requires AtRest(c, s, led, kv) && id < |s.reqs| && p < s.reqs[id].cached
    ensures p / c.B < |s.reqs[id].table| && p % c.B < c.B && Start(p / c.B, c.B) + p % c.B == p
  {
    hide KvComplete, Queues;
    assert Aligned(c, s.pool.pages, s.reqs[id]);
    assert TableOk(c, s.pool.pages, led, s.reqs[id]);
    PositionPage(c, s.reqs[id], p);
  }
}
