/** What a step decides, said without the loops that decide it: who comes first, who is admitted, who is not, and what
    an empty step complains about. */
module Policy {
  import opened Arith
  import opened Seqs
  import opened Requests
  import opened Pages
  import opened CacheInvariant
  import opened KvMemory
  import opened Matching
  import opened Boundary
  import opened Scheduling
  import opened SchedulerState
  import opened Prefill
  import opened Ranking
  import opened Steps
  import opened Delivery
  import opened Runs
  import opened CutResume
  import opened Drops

  // ---------------------------------------------------------------- who comes first

  /** The pages that a lookup finds for the request in this state. */
  function Cached(c: Config, s: Sys, x: nat): seq<nat> {
    var ids := MatchPrefix(c, s.pool, s.Get(x));
    if ids.Ok? then ids.value else []
  }

  /** `x` goes before `y`: it finds more pages, if those count; otherwise it stands before it in the queue. */
  predicate Ahead(c: Config, s: Sys, x: nat, y: nat) {
    var m, n := |Cached(c, s, x)|, |Cached(c, s, y)|;
    if c.lpm && m != n then m > n else IndexOf(s.waiting, x) < IndexOf(s.waiting, y)
  }

  ghost predicate InOrder(hits: nat -> nat, ids: seq<nat>, out: seq<nat>) {
    forall i, j :: 0 <= i < j < |out| ==>
      if hits(out[i]) != hits(out[j]) then hits(out[i]) > hits(out[j])
      else IndexOf(ids, out[i]) < IndexOf(ids, out[j])
  }

  lemma {:induction false} InsertInOrder(hits: nat -> nat, x: nat, ids: seq<nat>, s: seq<nat>)
    requires InOrder(hits, ids, s) && x !in s && x !in ids
    ensures InOrder(hits, [x] + ids, InsertBy(hits, x, s))
    ensures forall y :: y in InsertBy(hits, x, s) ==> y == x || y in s
  {
    var all, t := [x] + ids, InsertBy(hits, x, s);
    assert all[1..] == ids;
    if s == [] || hits(s[0]) <= hits(x) {
      forall i, j | 0 <= i < j < |t|
        ensures if hits(t[i]) != hits(t[j]) then hits(t[i]) > hits(t[j]) else IndexOf(all, t[i]) < IndexOf(all, t[j])
      {
        if i == 0 && j > 1 { assert hits(s[0]) >= hits(s[j - 1]); }
      }
    } else {
      InsertInOrder(hits, x, ids, s[1..]);
      var rest := InsertBy(hits, x, s[1..]);
      forall i, j | 0 <= i < j < |t|
        ensures if hits(t[i]) != hits(t[j]) then hits(t[i]) > hits(t[j]) else IndexOf(all, t[i]) < IndexOf(all, t[j])
      {
        if i == 0 {
          assert rest[j - 1] in rest;
          if rest[j - 1] != x {
            var k :| 0 <= k < |s[1..]| && s[1..][k] == rest[j - 1];
            assert s[k + 1] == rest[j - 1];
          }
        }
      }
    }
  }

  lemma {:induction false} SortInOrder(hits: nat -> nat, ids: seq<nat>)
    requires NoDup(ids)
    ensures InOrder(hits, ids, SortBy(hits, ids))
    ensures forall y :: y in SortBy(hits, ids) ==> y in ids
  {
    if ids != [] {
      SortInOrder(hits, ids[1..]);
      assert ids == [ids[0]] + ids[1..];
      InsertInOrder(hits, ids[0], ids[1..], SortBy(hits, ids[1..]));
    }
  }

  lemma {:induction false} IndexInOrder(ids: seq<nat>, i: nat)
    requires NoDup(ids) && i < |ids|
    ensures IndexOf(ids, ids[i]) == i
  {
    if i > 0 {
      assert ids[0] != ids[i];
      IndexInOrder(ids[1..], i - 1);
    }
  }

  /** All waiting requests, in that order. */
  ghost predicate Ranked(c: Config, s: Sys, ranked: seq<nat>) {
    && NoDup(ranked) && (forall x :: x in ranked <==> x in s.waiting)
    && forall i, j :: 0 <= i < j < |ranked| ==> Ahead(c, s, ranked[i], ranked[j])
  }

  ghost predicate Looked(c: Config, s: Sys, prefixes: Prefixes, ranked: seq<nat>) {
    forall x :: x in ranked ==> x in prefixes && prefixes[x] == Cached(c, s, x)
  }

  lemma RankIs(c: Config, s: Sys, led: Ledger, prefixes: Prefixes)
    requires NoDup(s.waiting) && MatchWaiting(c, s, s.waiting) == Ok(prefixes)
    ensures Ranked(c, s, Rank(c, prefixes, s.waiting)) && Looked(c, s, prefixes, Rank(c, prefixes, s.waiting))
    ensures !c.lpm ==> Rank(c, prefixes, s.waiting) == s.waiting
  {
    hide MatchPrefix, MatchWaiting, IndexOf;
    var out := Rank(c, prefixes, s.waiting);
    RankPermutes(c, prefixes, s.waiting);
    forall x | x in s.waiting
      ensures x in prefixes && prefixes[x] == Cached(c, s, x)
    {
      MatchedHits(c, s, s.waiting, x);
    }
    SortInOrder(HitsOf(prefixes), s.waiting);
    forall i, j | 0 <= i < j < |out|
      ensures Ahead(c, s, out[i], out[j])
    {
      assert out[i] in out && out[j] in out;
      if !c.lpm {
        IndexInOrder(s.waiting, i);
        IndexInOrder(s.waiting, j);
      }
    }
  }

  /** The ranking of a step is that order whenever somebody may be admitted at all; without ranking it is the queue. */
  lemma RankingIs(c: Config, s: Sys, led: Ledger, kv: Memory, plan: ChunkPlan)
    requires Nearly(c, s, led, kv)
    ensures RankedWaiting(c, s, plan).Ok?
    ensures var (prefixes, ranked) := RankedWaiting(c, s, plan).value;
            if plan.allowWaiting && s.waiting != [] && plan.tokenBudget > 0 then
              ranked != [] && Ranked(c, s, ranked) && Looked(c, s, prefixes, ranked) && (!c.lpm ==> ranked == s.waiting)
            else ranked == []
  {
    hide Nearly, MatchWaiting, Rank, Ranked, Looked;
    RankedWaitingOk(c, s, led, kv, plan);
    WaitingNoDup(c, s, led, kv);
    if plan.allowWaiting && s.waiting != [] && plan.tokenBudget > 0 {
      RankIs(c, s, led, MatchWaiting(c, s, s.waiting).value);
    }
  }

  lemma ChunkNotWaiting(c: Config, s: Sys, led: Ledger, kv: Memory)
    requires AtRest(c, s, led, kv)
    ensures s.chunked.Some? ==> s.chunked.value !in s.waiting
  {
    hide Quiescent;
    if s.chunked.Some? {
      assert Placed(s, s.chunked.value);
    }
  }

  /** A prefill of the batch is what the prefill half left. */
  lemma BatchOf(c: Config, s: Sys, led: Ledger, kv: Memory) returns (m: nat)
    requires AtRest(c, s, led, kv) && DecodeFits(c, s) && ScheduleFrom(c, s).Ok?
    ensures PlanStep(c, s).Ok? && PrefillStep(c, s, PlanStep(c, s).value).Ok?
    ensures var b, p := ScheduleFrom(c, s).value, PlanStep(c, s).value;
            var v := PrefillStep(c, s, p).value;
            && m <= |p.ranked| && v.1 == p.ranked[..m] && b.numPrefill == |ChunkIds(s, p.chunk)| + m <= |b.seqs|
            && (forall j :: 0 <= j < m ==> b.seqs[|ChunkIds(s, p.chunk)| + j] == p.ranked[j])
            && (forall j :: 0 <= j < |ChunkIds(s, p.chunk)| ==> b.seqs[j] !in s.waiting)
            && (forall x :: x !in s.running ==> b.sys.Get(x) == v.0.Get(x))
  {
    hide AtRest, Nearly, DecodeFits, Scheduled, PlanStep, PrefillStep, DecodeAll, Mid, PrefillOutcome;
    var led', k := ScheduleFromOk(c, s, led, kv);
    var p := PlanStep(c, s).value;
    RestIsSteppable(c, s, led, kv);
    var led1;
    led1, m := PrefillOk(c, s, led, kv, p);
    OutcomeFacts(c, s, led, led1, kv, p.chunk, p.ranked, m, p.reserved, PrefillStep(c, s, p));
    ChunkNotWaiting(c, s, led, kv);
    var v := PrefillStep(c, s, p).value;
    var b := ScheduleFrom(c, s).value;
    assert b.seqs == ChunkIds(s, p.chunk) + v.1 + s.running;
    forall x | x !in s.running
      ensures b.sys.Get(x) == v.0.Get(x)
    {
      DecodeTouches(c, v.0, s.running, x);
    }
  }

  /** Whoever is admitted goes before whoever is admitted behind him, and before whoever is left waiting. */
  lemma AdmittedInOrder(c: Config, s: Sys, led: Ledger, kv: Memory)
    requires AtRest(c, s, led, kv) && DecodeFits(c, s) && ScheduleFrom(c, s).Ok?
    ensures var b := ScheduleFrom(c, s).value;
            && b.numPrefill <= |b.seqs|
            && (forall i, j :: 0 <= i < j < b.numPrefill && b.seqs[i] in s.waiting && b.seqs[j] in s.waiting ==>
                  Ahead(c, s, b.seqs[i], b.seqs[j]))
            && (forall i, y :: 0 <= i < b.numPrefill && b.seqs[i] in s.waiting && y in s.waiting && y !in b.seqs ==>
                  Ahead(c, s, b.seqs[i], y))
  {
    hide AtRest, Nearly, DecodeFits, ScheduleFrom, PlanStep, PrefillStep, Ahead, RankedWaiting, Looked, ChunkIds;
    var m := BatchOf(c, s, led, kv);
    RestIsSteppable(c, s, led, kv);
    PlanStepOk(c, s, led, kv);
    var b, p := ScheduleFrom(c, s).value, PlanStep(c, s).value;
    RankingIs(c, s, led, kv, p.chunk);
    var n := |ChunkIds(s, p.chunk)|;
    forall i | n <= i < b.numPrefill
      ensures b.seqs[i] == p.ranked[i - n]
    {
      assert b.seqs[n + (i - n)] == p.ranked[i - n];
    }
    forall i, y | 0 <= i < b.numPrefill && b.seqs[i] in s.waiting && y in s.waiting && y !in b.seqs
      ensures Ahead(c, s, b.seqs[i], y)
    {
      var j :| 0 <= j < |p.ranked| && p.ranked[j] == y;
    }
  }

  // ---------------------------------------------------------------- what an empty step complains about

  lemma {:induction false} CommitGrows(c: Config, s: Sys, ranked: seq<nat>, budget: nat, reserved: nat, active: nat,
                                       committed: seq<nat>)
    ensures var res := CommitSameStep(c, s, ranked, budget, reserved, active, committed);
            res.Ok? ==> |committed| <= |res.value.1| && (|committed| == |res.value.1| ==> res.value.0 == s)
    decreases |ranked|
  {
    hide Decide, Admit;
    if ranked != [] && active + |committed| < c.maxSeqs {
      var d := Decide(c, s, ranked[0], budget, reserved);
      if d.Ok? && d.value.Take? {
        var s' := Admit(c, s, ranked[0], d.value.blocks, d.value.tokens);
        if s'.Ok? && !d.value.partial {
          CommitGrows(c, s'.value, ranked[1..], budget - d.value.tokens, reserved, active, committed + [ranked[0]]);
        }
      }
    }
  }

  /** A step that schedules nobody has changed nothing when it raises. */
  lemma EmptyChangesNothing(c: Config, s: Sys)
    requires EmptyPrefill(c, s)
    ensures ScheduleFrom(c, s) == Err(EmptyBatchError(c, s, PlanStep(c, s).value.prefixes, PlanStep(c, s).value.ranked))
  {
    hide PlanStep, EmptyBatchError, CommitSameStep, PlanFrozen;
    var p := PlanStep(c, s).value;
    assert AppendChunk(c, s, p.chunk) == Ok(s);
    if c.sameStep {
      CommitGrows(c, s, p.ranked, p.chunk.tokenBudget, p.reserved, s.Live(), []);
    } else {
      var adm := PlanFrozen(c, s, p.prefixes, p.ranked, p.chunk.tokenBudget, p.chunk.freeBudget, {}, s.Live(),
                            []).value;
      assert |Ids(adm)| == |adm|;
    }
    assert PrefillStep(c, s, p) == Ok((s, []));
    assert DecodeAll(c, s, s.running) == Ok(s);
    assert ChunkIds(s, p.chunk) + [] + s.running == [];
  }

  /** Nobody waits ahead of this one. */
  predicate First(c: Config, s: Sys, x: nat) {
    x in s.waiting && forall y :: y in s.waiting && y != x ==> Ahead(c, s, x, y)
  }

  /** Prefills may not be cut, and the first in line has more tokens to compute than any step may. */
  predicate TooLong(c: Config, s: Sys) {
    && !c.chunked && c.maxBatch > 0
    && exists x :: x in s.waiting && First(c, s, x)
                   && |s.Get(x).tokens| > Start(|Cached(c, s, x)|, c.B) + c.maxBatch
  }

  lemma RankedFirst(c: Config, s: Sys, ranked: seq<nat>, x: nat)
    requires Ranked(c, s, ranked) && ranked != []
    ensures First(c, s, x) <==> x == ranked[0]
  {
    hide Cached, IndexOf;
    if x in s.waiting {
      var i :| 0 <= i < |ranked| && ranked[i] == x;
      if i > 0 {
        assert Ahead(c, s, ranked[0], ranked[i]) && ranked[0] in s.waiting && ranked[0] != x;
      } else {
        forall y | y in s.waiting && y != x
          ensures Ahead(c, s, x, y)
        {
          var j :| 0 <= j < |ranked| && ranked[j] == y;
        }
      }
    }
  }

  /** The error of an empty batch, from the state that preemption leaves. */
  lemma EmptyErrorIs(c: Config, s: Sys, led: Ledger, kv: Memory)
    requires AtRest(c, s, led, kv) && DecodeFits(c, s) && s.running == []
    ensures PlanStep(c, s).Ok?
    ensures var p := PlanStep(c, s).value;
            EmptyBatchError(c, s, p.prefixes, p.ranked) == if TooLong(c, s) then PromptTooLong else NoProgress
  {
    hide AtRest, Nearly, DecodeFits, First, Ranked, RankedWaiting, MatchPrefix;
    RestIsSteppable(c, s, led, kv);
    PlanStepOk(c, s, led, kv);
    var p := PlanStep(c, s).value;
    RankingIs(c, s, led, kv, p.chunk);
    ChunkedOnly(c, s, led, kv);
    if !c.chunked {
      assert p.chunk.allowWaiting && p.chunk.tokenBudget == c.maxBatch;
    }
    if !c.chunked && p.ranked != [] {
      RankedFirst(c, s, p.ranked, p.ranked[0]);
      forall x | x in s.waiting && First(c, s, x)
        ensures x == p.ranked[0]
      {
        RankedFirst(c, s, p.ranked, x);
      }
      FirstLooked(c, s, led, kv, p.prefixes, p.ranked);
      var x := p.ranked[0];
      assert x in s.waiting && First(c, s, x);
      assert TooLong(c, s) <==> |s.Get(x).tokens| > Start(|Cached(c, s, x)|, c.B) + c.maxBatch;
    }
  }

  lemma FirstLooked(c: Config, s: Sys, led: Ledger, kv: Memory, prefixes: Prefixes, ranked: seq<nat>)
    requires Nearly(c, s, led, kv) && Ranked(c, s, ranked) && Looked(c, s, prefixes, ranked) && ranked != []
    ensures ranked[0] in s.waiting && First(c, s, ranked[0])
    ensures ranked[0] in prefixes && prefixes[ranked[0]] == Cached(c, s, ranked[0])
    ensures MatchPrefix(c, s.pool, s.Get(ranked[0])) == Ok(Cached(c, s, ranked[0])) && s.Get(ranked[0]).cached == 0
  {
    hide Nearly, MatchPrefix, Ahead, World;
    var x := ranked[0];
    RankedFirst(c, s, ranked, x);
    WaitingIdle(c, s, led, kv, x);
    RestWorld(c, s, led, kv);
    MatchPrefixSound(c, s.pool, s.reqs, led, x);
  }

  /** Which of the two exceptions a step raises that can schedule nobody. */
  lemma EmptySays(c: Config, s: Sys, led: Ledger, kv: Memory)
    requires Steppable(c, s, led, kv) && Schedule(c, s).Err?
    ensures var s0 := AfterPreemption(c, s);
            s0.running == [] && Schedule(c, s).error == if TooLong(c, s0) then PromptTooLong else NoProgress
  {
    hide Steppable, AtRest, DecodeFits, PreemptTail, ScheduleFrom, EmptyBatchError, PlanStep, TooLong;
    PreemptionKeepsRequests(c, s, led, kv);
    var s0 := AfterPreemption(c, s);
    var led', m := ScheduleFromOk(c, s0, led, kv);
    EmptyChangesNothing(c, s0);
    EmptyErrorIs(c, s0, led, kv);
  }
}
