/** One scheduling step as a function: preemption, the resumable chunk, ranked admission, decode. */
module Scheduling {
  import opened Arith
  import opened Seqs
  import opened Requests
  import opened Pages

  datatype Option<+T> = None | Some(value: T)

  const NOBODY: Req := Req([], 0, 0, false, 0, 0, [], Finished)

  /** The scheduler's state. A request is named by its `seq_id`, its index in `reqs`. */
  datatype Sys = Sys(
    pool: Pool,
    reqs: seq<Req>,
    waiting: seq<nat>,
    chunked: Option<nat>,    // chunked_req
    running: seq<nat>)
  {
    function Get(id: nat): Req {
      if id < |reqs| then reqs[id] else NOBODY
    }

    function Put(id: nat, pool': Pool, r: Req): Sys {
      this.(pool := pool', reqs := if id < |reqs| then reqs[id := r] else reqs)
    }

    /** Requests that hold a place among `max_num_seqs`. */
    function Live(): nat {
      |running| + if chunked.Some? then 1 else 0
    }

    predicate IsFinished() {
      waiting == [] && chunked.None? && running == []
    }
  }

  datatype Batch = Batch(sys: Sys, seqs: seq<nat>, numPrefill: nat)

  /** `preempt`: the request goes back to the front of the waiting queue, without its pages. */
  function Preempt(c: Config, s: Sys, id: nat): (res: Result<Sys>)
    ensures res.Ok? ==> res.value.running == s.running
  {
    var v :- Deallocate(s.pool, s.Get(id));
    Ok(s.Put(id, v.0, v.1.(status := Waiting)).(waiting := [id] + s.waiting))
  }

  /** Pages the next decode step of these requests will take. */
  function SumAppend(c: Config, reqs: seq<Req>, ids: seq<nat>): nat {
    if ids == [] then 0
    else (if ids[0] < |reqs| then NumBlocksToAppend(c, reqs[ids[0]], 1) else 0) + SumAppend(c, reqs, ids[1..])
  }

  predicate DecodeFits(c: Config, s: Sys) {
    |s.running| <= c.maxBatch && SumAppend(c, s.reqs, s.running) <= |s.pool.free|
  }

  /** `_preempt_decode_tail` */
  function PreemptTail(c: Config, s: Sys): Result<Sys>
    decreases |s.running|
  {
    if s.running == [] || DecodeFits(c, s) then Ok(s)
    else
      var n := |s.running| - 1;
      var s1 :- Preempt(c, s.(running := s.running[..n]), s.running[n]);
      PreemptTail(c, s1)
  }

  /** `_match_waiting`: one lookup per waiting request, against the same pool. */
  function MatchWaiting(c: Config, s: Sys, ids: seq<nat>): Result<map<nat, seq<nat>>> {
    if ids == [] then Ok(map[])
    else
      var m :- MatchPrefix(c, s.pool, s.Get(ids[0]));
      var rest :- MatchWaiting(c, s, ids[1..]);
      Ok(rest[ids[0] := m])
  }

  function Hits(prefixes: map<nat, seq<nat>>, id: nat): nat {
    if id in prefixes then |prefixes[id]| else 0
  }

  function HitsOf(prefixes: map<nat, seq<nat>>): nat -> nat {
    id => Hits(prefixes, id)
  }

  /** Place `x` before the first entry that has no more hits. */
  function InsertBy<T>(hits: T -> nat, x: T, s: seq<T>): seq<T> {
    if s == [] || hits(s[0]) <= hits(x) then [x] + s
    else [s[0]] + InsertBy(hits, x, s[1..])
  }

  /** `sorted(waiting, key = -hits)`, a stable sort. */
  function SortBy<T>(hits: T -> nat, s: seq<T>): seq<T> {
    if s == [] then [] else InsertBy(hits, s[0], SortBy(hits, s[1..]))
  }

  /** `_rank_waiting` */
  function Rank(c: Config, prefixes: map<nat, seq<nat>>, ids: seq<nat>): seq<nat> {
    if c.lpm then SortBy(HitsOf(prefixes), ids) else ids
  }

  datatype ChunkPlan = ChunkPlan(scheduled: bool, tokens: nat, blocks: nat, allowWaiting: bool, tokenBudget: nat,
                                 freeBudget: nat)

  /** What this step gives the resumable chunk, and whether new requests may be admitted beside it. */
  function PlanChunk(c: Config, s: Sys, tokenBudget: nat, freeBudget: nat): Result<ChunkPlan> {
    if s.chunked.None? then Ok(ChunkPlan(false, 0, 0, true, tokenBudget, freeBudget))
    else
      var r := s.Get(s.chunked.value);
      if |r.tokens| <= r.cached then Err(AssertionFailed)
      else
        var remaining := |r.tokens| - r.cached;
        var n := Min(remaining, tokenBudget);
        var blocks := NumBlocksToAppend(c, r, n);
        if n == 0 || blocks > freeBudget then Ok(ChunkPlan(false, 0, 0, false, tokenBudget, freeBudget))
        else Ok(ChunkPlan(true, n, blocks, n == remaining, tokenBudget - n, freeBudget - blocks))
  }

  /** `num_new_tokens = n; may_append` */
  function ScheduleAppend(c: Config, s: Sys, id: nat, n: nat): Result<Sys> {
    var v :- MayAppend(c, s.pool, s.Get(id).(newToks := n));
    Ok(s.Put(id, v.0, v.1))
  }

  function AppendChunk(c: Config, s: Sys, plan: ChunkPlan): Result<Sys> {
    if plan.scheduled && s.chunked.Some? then ScheduleAppend(c, s, s.chunked.value, plan.tokens) else Ok(s)
  }

  /** Claim the matched prefix, allocate the rest, leave the waiting queue. */
  function Admit(c: Config, s: Sys, id: nat, blocks: seq<nat>, n: nat): Result<Sys> {
    var v :- ClaimPrefix(c, s.pool, s.Get(id), blocks);
    var w :- AllocateNew(c, v.0, v.1.(newToks := n));
    Ok(s.Put(id, w.0, w.1.(status := Running)).(waiting := Remove(s.waiting, id)))
  }

  datatype Decision = Stop | Take(blocks: seq<nat>, tokens: nat, partial: bool)

  /** One round of the same-step loop, up to its first change: stop, or take these pages and so many tokens. */
  function Decide(c: Config, s: Sys, id: nat, budget: nat, reserved: nat): (d: Result<Decision>)
    ensures d.Ok? && d.value.Take? ==> d.value.tokens <= budget
  {
    var r := s.Get(id);
    var latest :- MatchPrefix(c, s.pool, r);
    var cached := r.cached + Start(|latest|, c.B);
    if |r.tokens| <= cached then Err(AssertionFailed)
    else
      var remaining := |r.tokens| - cached;
      var n := Min(remaining, budget);
      if (!c.chunked && remaining > budget) || n <= 0 then Ok(Stop)
      else if |s.pool.free| < reserved then Err(AssertionFailed)
      else if RequiredForAdmission(c, s.pool, latest, n) > |s.pool.free| - reserved then Ok(Stop)
      else Ok(Take(latest, n, n < remaining))
  }

  /** `_commit_waiting_same_step`: every lookup sees the pages its predecessors published in this step. */
  function CommitSameStep(c: Config, s: Sys, ranked: seq<nat>, tokenBudget: nat, reserved: nat, active: nat,
                          committed: seq<nat>)
    : Result<(Sys, seq<nat>)>
    decreases |ranked|
  {
    if ranked == [] || active + |committed| >= c.maxSeqs then Ok((s, committed))
    else
      var id := ranked[0];
      var d :- Decide(c, s, id, tokenBudget, reserved);
      if d.Stop? then Ok((s, committed))
      else
        var s' :- Admit(c, s, id, d.blocks, d.tokens);
        if d.partial then Ok((s', committed + [id]))
        else CommitSameStep(c, s', ranked[1..], tokenBudget - d.tokens, reserved, active, committed + [id])
  }

  datatype Admission = Admission(id: nat, blocks: seq<nat>, end: nat)

  datatype PlanDecision = PlanStop | PlanTake(admission: Admission, newly: set<nat>, tokens: nat, cost: nat,
                                              partial: bool)

  /** One round of the frozen mode's planning, before its budgets are charged. */
  function PlanRound(c: Config, s: Sys, prefixes: map<nat, seq<nat>>, id: nat, tokenBudget: nat, freeBudget: nat,
                     protected: set<nat>)
    : (d: Result<PlanDecision>)
    ensures d.Ok? && d.value.PlanTake? ==>
              d.value.admission.id == id && d.value.tokens <= tokenBudget && d.value.cost <= freeBudget
  {
    var r := s.Get(id);
    var blocks := if id in prefixes then prefixes[id] else [];
    var cached := r.cached + Start(|blocks|, c.B);
    if |r.tokens| <= cached then Err(AssertionFailed)
    else
      var remaining := |r.tokens| - cached;
      var n := Min(remaining, tokenBudget);
      var newly := FreeAmong(s.pool, blocks) - protected;
      var cost := |newly| + Ceil(Max(n, 0), c.B);
      if (!c.chunked && remaining > tokenBudget) || n <= 0 || cost > freeBudget then Ok(PlanStop)
      else Ok(PlanTake(Admission(id, blocks, cached + n), newly, n, cost, n < remaining))
  }

  /** The frozen-plan mode decides all admissions first, from the snapshot alone. */
  function PlanFrozen(c: Config, s: Sys, prefixes: map<nat, seq<nat>>, ranked: seq<nat>, tokenBudget: nat,
                      freeBudget: nat,
                      protected: set<nat>, active: nat, admitted: seq<Admission>): Result<seq<Admission>>
    decreases |ranked|
  {
    if ranked == [] || active + |admitted| >= c.maxSeqs then Ok(admitted)
    else
      var d :- PlanRound(c, s, prefixes, ranked[0], tokenBudget, freeBudget, protected);
      if d.PlanStop? then Ok(admitted)
      else
        var admitted' := admitted + [d.admission];
        if d.partial then Ok(admitted')
        else PlanFrozen(c, s, prefixes, ranked[1..], tokenBudget - d.tokens, freeBudget - d.cost, protected + d.newly,
                        active, admitted')
  }

  function ClaimStep(c: Config, s: Sys, id: nat, blocks: seq<nat>): Result<Sys> {
    var v :- ClaimPrefix(c, s.pool, s.Get(id), blocks);
    Ok(s.Put(id, v.0, v.1))
  }

  /** All admitted prefixes are claimed before anything is allocated. */
  function ClaimAdmitted(c: Config, s: Sys, admitted: seq<Admission>): Result<Sys>
    decreases |admitted|
  {
    if admitted == [] then Ok(s)
    else
      var s' :- ClaimStep(c, s, admitted[0].id, admitted[0].blocks);
      ClaimAdmitted(c, s', admitted[1..])
  }

  function AllocateStep(c: Config, s: Sys, id: nat, n: nat): Result<Sys> {
    var v :- AllocateNew(c, s.pool, s.Get(id).(newToks := n));
    Ok(s.Put(id, v.0, v.1.(status := Running)).(waiting := Remove(s.waiting, id)))
  }

  function AllocateAdmitted(c: Config, s: Sys, admitted: seq<Admission>): Result<Sys>
    decreases |admitted|
  {
    if admitted == [] then Ok(s)
    else
      var a := admitted[0];
      var r := s.Get(a.id);
      if a.end <= r.cached then Err(AssertionFailed)
      else
        var s' :- AllocateStep(c, s, a.id, a.end - r.cached);
        AllocateAdmitted(c, s', admitted[1..])
  }

  function Ids(admitted: seq<Admission>): seq<nat> {
    seq(|admitted|, i requires 0 <= i < |admitted| => admitted[i].id)
  }

  /** The decode half of the batch: one token each. */
  function DecodeAll(c: Config, s: Sys, ids: seq<nat>): Result<Sys>
    decreases |ids|
  {
    if ids == [] then Ok(s)
    else if |s.Get(ids[0]).tokens| != s.Get(ids[0]).cached + 1 then Err(AssertionFailed)
    else
      var s' :- ScheduleAppend(c, s, ids[0], 1);
      DecodeAll(c, s', ids[1..])
  }

  /** The error of an empty batch. */
  function EmptyBatchError(c: Config, s: Sys, prefixes: map<nat, seq<nat>>, ranked: seq<nat>): Error {
    if !c.chunked && ranked != [] then
      var r := s.Get(ranked[0]);
      var blocks := if c.sameStep then MatchPrefix(c, s.pool, r)
                    else Ok(if ranked[0] in prefixes then prefixes[ranked[0]] else []);
      if blocks.Err? then blocks.error
      else if |r.tokens| - (r.cached + Start(|blocks.value|, c.B)) > c.maxBatch then PromptTooLong
      else NoProgress
    else NoProgress
  }

  /** The waiting requests in rank order with their snapshot plans; none when waiting may not be admitted. */
  function RankedWaiting(c: Config, s: Sys, plan: ChunkPlan): Result<(map<nat, seq<nat>>, seq<nat>)> {
    if plan.allowWaiting && s.waiting != [] && plan.tokenBudget > 0 then
      var prefixes :- MatchWaiting(c, s, s.waiting);
      Ok((prefixes, Rank(c, prefixes, s.waiting)))
    else Ok((map[], []))
  }

  function PrefillSameStep(c: Config, s: Sys, plan: ChunkPlan, ranked: seq<nat>, reserved: nat): Result<(Sys,
      seq<nat>)> {
    var s1 :- AppendChunk(c, s, plan);
    CommitSameStep(c, s1, ranked, plan.tokenBudget, reserved, s.Live(), [])
  }

  function PrefillFrozen(c: Config, s: Sys, plan: ChunkPlan, prefixes: map<nat, seq<nat>>,
                         ranked: seq<nat>): Result<(Sys, seq<nat>)> {
    var admitted :- PlanFrozen(c, s, prefixes, ranked, plan.tokenBudget, plan.freeBudget, {}, s.Live(), []);
    var s1 :- ClaimAdmitted(c, s, admitted);
    var s2 :- AppendChunk(c, s1, plan);
    var s3 :- AllocateAdmitted(c, s2, admitted);
    Ok((s3, Ids(admitted)))
  }

  function ChunkIds(s: Sys, plan: ChunkPlan): seq<nat> {
    if plan.scheduled && s.chunked.Some? then [s.chunked.value] else []
  }

  /** What a step decides before it changes anything: the chunk's share, the snapshot plans, the ranking, and the pages
      that decode will need. */
  datatype StepPlan = StepPlan(chunk: ChunkPlan, prefixes: map<nat, seq<nat>>, ranked: seq<nat>, reserved: nat)

  function PlanStep(c: Config, s: Sys): Result<StepPlan> {
    var reserved := SumAppend(c, s.reqs, s.running);
    if |s.running| > c.maxBatch || reserved > |s.pool.free| then Err(AssertionFailed)
    else
      var chunk :- PlanChunk(c, s, c.maxBatch - |s.running|, |s.pool.free| - reserved);
      var ranking :- RankedWaiting(c, s, chunk);
      Ok(StepPlan(chunk, ranking.0, ranking.1, reserved))
  }

  /** The prefill half, in the mode the engine was started with. */
  function PrefillStep(c: Config, s: Sys, p: StepPlan): Result<(Sys, seq<nat>)> {
    if c.sameStep then PrefillSameStep(c, s, p.chunk, p.ranked, p.reserved)
    else PrefillFrozen(c, s, p.chunk, p.prefixes, p.ranked)
  }

  /** `schedule`, from the state that preemption leaves. */
  function ScheduleFrom(c: Config, s: Sys): Result<Batch> {
    var p :- PlanStep(c, s);
    var v :- PrefillStep(c, s, p);
    var s' :- DecodeAll(c, v.0, s.running);
    var prefills := ChunkIds(s, p.chunk) + v.1;
    if prefills + s.running == [] then Err(EmptyBatchError(c, s', p.prefixes, p.ranked))
    else Ok(Batch(s', prefills + s.running, |prefills|))
  }

  /** `schedule` */
  function Schedule(c: Config, s: Sys): Result<Batch> {
    var s1 :- PreemptTail(c, s);
    ScheduleFrom(c, s1)
  }

  // ---------------------------------------------------------------- after the forward pass

  /** The loop over `append_token` stops a request for one of three reasons. */
  predicate Stops(c: Config, r: Req) {
    || (!r.ignoreEos && r.tokens != [] && r.tokens[|r.tokens| - 1] == c.eos)
    || r.Completions() >= r.maxTokens
    || |r.tokens| >= c.maxLen
  }

  /** `_finish` */
  function Finish(s: Sys, id: nat): Result<Sys> {
    var v :- Deallocate(s.pool, s.Get(id));
    Ok(s.Put(id, v.0, v.1.(status := Finished))
        .(chunked := if s.chunked == Some(id) then None else s.chunked, running := Remove(s.running, id)))
  }

  /** Append one sampled token, and finish the request if that ends it. */
  function Deliver(c: Config, s: Sys, id: nat, t: Token): Result<Sys> {
    var r := s.Get(id).(tokens := s.Get(id).tokens + [t]);
    var s1 := s.Put(id, s.pool, r);
    if Stops(c, r) then Finish(s1, id) else Ok(s1)
  }

  function DeliverAll(c: Config, s: Sys, ids: seq<nat>, ts: seq<Token>): Result<Sys>
    decreases |ids|
  {
    if |ids| != |ts| then Err(AssertionFailed)
    else if ids == [] then Ok(s)
    else
      var s' :- Deliver(c, s, ids[0], ts[0]);
      DeliverAll(c, s', ids[1..], ts[1..])
  }

  function Commit(r: Req): Req {
    if r.status == Finished then r else r.(cached := r.cached + r.newToks, newToks := 0)
  }

  function CommitAll(s: Sys, ids: seq<nat>): Sys
    decreases |ids|
  {
    if ids == [] then s else CommitAll(s.Put(ids[0], s.pool, Commit(s.Get(ids[0]))), ids[1..])
  }

  /** Prefills that are still short of their prompt. */
  function Partial(s: Sys, prefills: seq<nat>): seq<nat> {
    if prefills == [] then []
    else
      var r := s.Get(prefills[0]);
      (if r.status != Finished && r.cached < r.numPrompt then [prefills[0]] else []) + Partial(s, prefills[1..])
  }

  /** The others join the running queue. */
  function Promote(s: Sys, running: seq<nat>, prefills: seq<nat>): seq<nat>
    decreases |prefills|
  {
    if prefills == [] then running
    else
      var r := s.Get(prefills[0]);
      Promote(s,
        if r.status != Finished && r.cached >= r.numPrompt && prefills[0] !in running then running + [prefills[0]]
            else running,
        prefills[1..])
  }

  /** `postprocess`; `ids` are the requests whose last token was computed in this step. */
  function Postprocess(c: Config, b: Batch, ids: seq<nat>, ts: seq<Token>): Result<Sys>
    requires b.numPrefill <= |b.seqs|
  {
    var s1 :- DeliverAll(c, b.sys, ids, ts);
    var s2 := CommitAll(s1, b.seqs);
    var prefills := b.seqs[..b.numPrefill];
    var partial := Partial(s2, prefills);
    if |partial| > 1 then Err(AssertionFailed)
    else Ok(s2.(running := Promote(s2, s2.running, prefills),
                chunked := if prefills == [] then s2.chunked else if partial == [] then None else Some(partial[0])))
  }

  /** `seq_need_compute_logits`: the requests whose context reaches their last token. */
  function NeedLogits(s: Sys, ids: seq<nat>): seq<nat> {
    if ids == [] then []
    else
      var r := s.Get(ids[0]);
      (if |r.tokens| == r.Context() && r.table != [] then [ids[0]] else []) + NeedLogits(s, ids[1..])
  }
}
