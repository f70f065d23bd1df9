/** From a computed batch back to rest, and the exact condition under which that is where the step ends. */
module Postprocessing {
  import opened Arith
  import opened Seqs
  import opened Requests
  import opened CacheInvariant
  import opened KvMemory
  import opened Growth
  import opened Boundary
  import opened Scheduling
  import opened SchedulerState
  import opened Prefill
  import opened Steps
  import opened Delivery

  /** The batch once its keys and values are in memory: what `postprocess` starts from. */
  ghost predicate Computed(c: Config, s0: Sys, b: Batch, led: Ledger, led0: Ledger, kv0: Memory, kv: Memory) {
    && Scheduled(c, s0, b, led, kv0)
    && AtRest(c, s0, led0, kv0)
    && Quiescent(c, b.sys.pool, b.sys.reqs, led, kv)
  }

  /** No prefill stops between the prompt's end and the last token but one. */
  predicate ChunkSafe(b: Batch)
    requires b.numPrefill <= |b.seqs|
  {
    forall k :: 0 <= k < b.numPrefill ==>
      var r := b.sys.Get(b.seqs[k]);
      r.Context() < r.numPrompt || r.Context() + 1 >= |r.tokens|
  }

  /** The token a request was given in this step; 0 for one that was given none. */
  function TokenFor(b: Batch, ts: seq<Token>, id: nat): Token
    requires |ts| == |NeedLogits(b.sys, b.seqs)|
  {
    var ids := NeedLogits(b.sys, b.seqs);
    if id in ids then ts[IndexOf(ids, id)] else 0
  }

  function FinalReq(c: Config, b: Batch, ts: seq<Token>, id: nat): Req
    requires id < |b.sys.reqs| && |ts| == |NeedLogits(b.sys, b.seqs)|
  {
    var r := AfterDelivery(c, b.sys.reqs[id], NeedLogits(b.sys, b.seqs), ts, id);
    if id in b.seqs then Commit(r) else r
  }

  lemma BatchMember(c: Config, s0: Sys, b: Batch, led: Ledger, kv: Memory, id: nat)
    requires Scheduled(c, s0, b, led, kv) && id < |b.sys.reqs|
    ensures |b.sys.reqs| == |s0.reqs|
    ensures id !in b.seqs ==> b.sys.reqs[id] == s0.reqs[id]
    ensures id in b.seqs ==>
              && b.sys.reqs[id].status == Running && b.sys.reqs[id].newToks > 0
              && b.sys.reqs[id].Context() <= |b.sys.reqs[id].tokens| && b.sys.reqs[id].table != []
              && SameRequest(s0.reqs[id], b.sys.reqs[id])
              && (id in s0.waiting || s0.chunked == Some(id) || id in s0.running)
    ensures id in NeedLogits(b.sys, b.seqs) <==> id in b.seqs && Complete(b.sys, id)
  {
    assert MidReq(s0, b.sys, b.seqs, id);
    assert Aligned(c, b.sys.pool.pages, b.sys.reqs[id]);
    CeilBounds(b.sys.reqs[id].Context(), c.B);
    NeedLogitsMembers(b.sys, b.seqs);
  }

  /** The four ways a request can come out of a step. */
  lemma FinalCases(c: Config, s0: Sys, b: Batch, led: Ledger, kv: Memory, ts: seq<Token>, id: nat)
    requires Scheduled(c, s0, b, led, kv) && id < |b.sys.reqs| && |ts| == |NeedLogits(b.sys, b.seqs)|
    ensures var r := b.sys.reqs[id];
            var f := FinalReq(c, b, ts, id);
            && (id !in b.seqs ==> f == s0.reqs[id])
            && (id in b.seqs && !Complete(b.sys, id) ==>
                  f == r.(cached := r.Context(), newToks := 0) && f.cached < |f.tokens| && f.status == Running)
            && (id in b.seqs && Complete(b.sys, id) ==>
                  var t := TokenFor(b, ts, id);
                  if Stops(c, WithToken(r, t)) then f == Cleared(WithToken(r, t)).(status := Finished)
                  else
                    && f == WithToken(r, t).(cached := r.Context(), newToks := 0) && f.cached + 1 == |f.tokens|
                    && f.status == Running)
  {
    hide Stops, Scheduled;
    BatchMember(c, s0, b, led, kv, id);
  }

  /** What `postprocess` computes, before asking whether it is a state of rest. */
  ghost predicate Posted(c: Config, b: Batch, ts: seq<Token>, s: Sys)
    requires |ts| == |NeedLogits(b.sys, b.seqs)| && b.numPrefill <= |b.seqs|
  {
    var prefills := b.seqs[..b.numPrefill];
    && |s.reqs| == |b.sys.reqs| && |s.pool.pages| == |b.sys.pool.pages|
    && (forall id: nat {:trigger s.reqs[id]} :: id < |s.reqs| ==> s.reqs[id] == FinalReq(c, b, ts, id))
    && s.waiting == b.sys.waiting
    && NoDup(s.running)
    && s.running == Alive(s, b.sys.running) + Promoted(s, prefills)
    && (forall x :: x in s.running <==>
          || (x in b.sys.running && s.Get(x).status != Finished)
          || (x in prefills && IsPromoted(s, x)))
    && s.chunked == (if prefills == [] then b.sys.chunked
                     else if IsPartial(s, prefills[|prefills| - 1]) then Some(prefills[|prefills| - 1]) else None)
    && |s.running| + (if prefills != [] && s.chunked.Some? then 1 else 0) <= |b.sys.running| + |prefills|
  }

  /** Nothing in the batch is finished before a token has finished it, and every token has its request. */
  lemma DeliveriesReady(c: Config, s0: Sys, b: Batch, led: Ledger, kv: Memory)
    requires Scheduled(c, s0, b, led, kv)
    ensures var ids := NeedLogits(b.sys, b.seqs);
            && NoDup(ids)
            && (forall k :: 0 <= k < |ids| ==> ids[k] < |b.sys.reqs| && b.sys.reqs[ids[k]].status != Finished)
    ensures NoDup(b.seqs) && forall k :: 0 <= k < |b.seqs| ==> b.seqs[k] < |b.sys.reqs|
    ensures b.sys.running == s0.running && b.sys.chunked == s0.chunked
  {
    NeedLogitsMembers(b.sys, b.seqs);
    var ids := NeedLogits(b.sys, b.seqs);
    forall k | 0 <= k < |ids|
      ensures ids[k] < |b.sys.reqs| && b.sys.reqs[ids[k]].status != Finished
    {
      assert ids[k] in ids;
      assert ids[k] in b.seqs;
      assert MidReq(s0, b.sys, b.seqs, ids[k]);
    }
  }

  /** Deliveries and commits together give every request its final form. */
  lemma DeliveredAndCommitted(c: Config, s0: Sys, b: Batch, led: Ledger, kv0: Memory, kv: Memory, ts: seq<Token>)
    requires Scheduled(c, s0, b, led, kv0) && Quiescent(c, b.sys.pool, b.sys.reqs, led, kv) && NoDup(s0.running)
    requires |ts| == |NeedLogits(b.sys, b.seqs)|
    ensures DeliverAll(c, b.sys, NeedLogits(b.sys, b.seqs), ts).Ok?
    ensures var s1 := DeliverAll(c, b.sys, NeedLogits(b.sys, b.seqs), ts).value;
            var s2 := CommitAll(s1, b.seqs);
            && Quiescent(c, s2.pool, s2.reqs, led, kv)
            && |s2.reqs| == |b.sys.reqs| && |s2.pool.pages| == |b.sys.pool.pages|
            && (forall id: nat {:trigger s2.reqs[id]} :: id < |s2.reqs| ==> s2.reqs[id] == FinalReq(c, b, ts, id))
            && s2.waiting == b.sys.waiting && NoDup(s2.running)
            && s2.running == Survivors(s1, b.sys.running, NeedLogits(b.sys, b.seqs))
            && |s1.reqs| == |s2.reqs| && (forall id: nat :: id < |s2.reqs| ==> s2.reqs[id].status == s1.reqs[id].status)
            && (forall x :: x in s2.running <==>
                 x in b.sys.running && (x in NeedLogits(b.sys, b.seqs) ==> s2.Get(x).status != Finished))
            && (s2.chunked == if s0.chunked.Some? && s0.chunked.value in NeedLogits(b.sys, b.seqs)
                && s2.Get(s0.chunked.value).status == Finished
                              then None else s0.chunked)
  {
    hide Scheduled, Quiescent, NeedLogits, DeliverAll, CommitAll, Stops;
    var ids := NeedLogits(b.sys, b.seqs);
    DeliveriesReady(c, s0, b, led, kv0);
    DeliverAllOk(c, b.sys, led, kv, ids, ts);
    var s1 := DeliverAll(c, b.sys, ids, ts).value;
    CommitAllOk(c, s1, led, kv, b.seqs);
    var s2 := CommitAll(s1, b.seqs);
    forall id: nat | id < |s2.reqs|
      ensures s2.reqs[id] == FinalReq(c, b, ts, id) && s2.reqs[id].status == s1.reqs[id].status
    {
      assert s1.reqs[id] == AfterDelivery(c, b.sys.reqs[id], ids, ts, id);
    }
    forall k | 0 <= k < |ids|
      ensures ids[k] < |s2.reqs|
    {
    }
  }

  /** Only the last prefill can be short of its prompt: the others have reached their last token. */
  lemma OnlyLastPartial(c: Config, s0: Sys, b: Batch, led: Ledger, kv: Memory, ts: seq<Token>, s: Sys, k: nat)
    requires Scheduled(c, s0, b, led, kv) && |ts| == |NeedLogits(b.sys, b.seqs)|
    requires forall id: nat :: id < |s0.reqs| ==> ReqLimits(c, s0.reqs[id])
    requires |s.reqs| == |b.sys.reqs| && forall id: nat :: id < |s.reqs| ==> s.reqs[id] == FinalReq(c, b, ts, id)
    requires k < b.numPrefill - 1
    ensures !IsPartial(s, b.seqs[k])
  {
    hide FinalReq, Stops, Mid;
    var id := b.seqs[k];
    assert Complete(b.sys, id);
    FinalCases(c, s0, b, led, kv, ts, id);
    BatchMember(c, s0, b, led, kv, id);
    assert ReqLimits(c, s0.reqs[id]);
  }

  /** What the last loop of `postprocess` makes of the delivered and committed state. */
  ghost predicate Sorted(b: Batch, s2: Sys, s: Sys)
    requires b.numPrefill <= |b.seqs|
  {
    var prefills := b.seqs[..b.numPrefill];
    && s == s2.(running := Promote(s2, s2.running, prefills),
                chunked := if prefills == [] then s2.chunked
                           else if IsPartial(s2, prefills[|prefills| - 1]) then Some(prefills[|prefills| - 1])
                               else None)
    && |Partial(s2, prefills)| + |s.running| <= |s2.running| + |prefills|
    && (prefills != [] && s.chunked.Some? ==> |Partial(s2, prefills)| == 1)
    && NoDup(s.running)
    && forall x :: x in s.running <==> x in s2.running || (x in prefills && IsPromoted(s2, x))
  }

  lemma LastLoop(c: Config, s0: Sys, b: Batch, led: Ledger, kv: Memory, ts: seq<Token>, s2: Sys)
    requires Scheduled(c, s0, b, led, kv) && |ts| == |NeedLogits(b.sys, b.seqs)| && NoDup(s2.running)
    requires forall id: nat :: id < |s0.reqs| ==> ReqLimits(c, s0.reqs[id])
    requires |s2.reqs| == |b.sys.reqs| && forall id: nat {:trigger s2.reqs[id]} ::
               id < |s2.reqs| ==> s2.reqs[id] == FinalReq(c, b, ts, id)
    ensures var prefills := b.seqs[..b.numPrefill];
            var partial := Partial(s2, prefills);
            && |partial| <= 1
            && Sorted(b, s2, s2.(running := Promote(s2, s2.running, prefills),
                                 chunked := if prefills == [] then s2.chunked else if partial == [] then None
                                     else Some(partial[0])))
  {
    hide NeedLogits, FinalReq, Mid, Promote, Partial;
    var prefills := b.seqs[..b.numPrefill];
    forall k: nat | k < |prefills| - 1
      ensures !IsPartial(s2, prefills[k])
    {
      OnlyLastPartial(c, s0, b, led, kv, ts, s2, k);
    }
    PartialLast(s2, prefills);
    PromoteMembers(s2, s2.running, prefills);
  }

  /** The running queue is in order: first those who were running and go on, then the promoted prefills. */
  lemma RunningOrder(c: Config, s0: Sys, b: Batch, led: Ledger, kv: Memory, s1: Sys, s2: Sys, s: Sys)
    requires Scheduled(c, s0, b, led, kv) && |s1.reqs| == |s2.reqs| == |b.sys.reqs|
    requires forall id: nat :: id < |s2.reqs| ==> s2.reqs[id].status == s1.reqs[id].status
    requires s2.running == Survivors(s1, b.sys.running, NeedLogits(b.sys, b.seqs))
    requires forall x :: x in s2.running ==> x in b.sys.running
    requires s.reqs == s2.reqs && s.running == Promote(s2, s2.running, b.seqs[..b.numPrefill])
    ensures s.running == Alive(s, b.sys.running) + Promoted(s, b.seqs[..b.numPrefill])
  {
    hide NeedLogits, Mid, Promote;
    var prefills := b.seqs[..b.numPrefill];
    DeliveriesReady(c, s0, b, led, kv);
    forall x | x in b.sys.running
      ensures x in NeedLogits(b.sys, b.seqs) && s2.Get(x).status == s1.Get(x).status
    {
      BatchSides(c, s0, b, led, kv, x);
      BatchMember(c, s0, b, led, kv, x);
    }
    SurvivorsAlive(s1, s2, b.sys.running, NeedLogits(b.sys, b.seqs));
    forall x | x in prefills
      ensures x !in s2.running
    {
      BatchSides(c, s0, b, led, kv, x);
    }
    PromoteAppends(s2, s2.running, prefills);
    SameReqsAlive(s2, s, b.sys.running);
    SameReqsAlive(s2, s, prefills);
  }

  /** `postprocess` succeeds on every computed batch. */
  lemma PostprocessPosted(c: Config, s0: Sys, b: Batch, led: Ledger, led0: Ledger, kv0: Memory, kv: Memory,
                          ts: seq<Token>)
    requires Computed(c, s0, b, led, led0, kv0, kv) && |ts| == |NeedLogits(b.sys, b.seqs)|
    ensures Postprocess(c, b, NeedLogits(b.sys, b.seqs), ts).Ok?
    ensures var s := Postprocess(c, b, NeedLogits(b.sys, b.seqs), ts).value;
            Posted(c, b, ts, s) && Quiescent(c, s.pool, s.reqs, led, kv)
  {
    hide Quiescent, DeliverAll, CommitAll, NeedLogits, FinalReq, Scheduled, AtRest, Partial, Promote, Alive, Promoted,
         Sorted, Posted;
    RestIsSteppable(c, s0, led0, kv0);
    RestLimits(c, s0, led0, kv0);
    RestRunning(c, s0, led0, kv0);
    ScheduledPrefills(c, s0, b, led, kv0);
    DeliveredAndCommitted(c, s0, b, led, kv0, kv, ts);
    var s1 := DeliverAll(c, b.sys, NeedLogits(b.sys, b.seqs), ts).value;
    var s2 := CommitAll(s1, b.seqs);
    LastLoop(c, s0, b, led, kv0, ts, s2);
    PostedQueues(c, s0, b, led, kv0, led0, ts, s2);
    var s := Postprocess(c, b, NeedLogits(b.sys, b.seqs), ts).value;
    RunningOrder(c, s0, b, led, kv0, s1, s2, s);
    PostedAll(c, b, ts, s2, s);
  }

  lemma RestRunning(c: Config, s: Sys, led: Ledger, kv: Memory)
    requires AtRest(c, s, led, kv)
    ensures NoDup(s.running)
  {
  }

  lemma ScheduledPrefills(c: Config, s0: Sys, b: Batch, led: Ledger, kv: Memory)
    requires Scheduled(c, s0, b, led, kv)
    ensures b.numPrefill <= |b.seqs| && b.sys.chunked == s0.chunked && |b.sys.reqs| == |s0.reqs|
  {
    hide Consistent;
  }

  lemma PostedAll(c: Config, b: Batch, ts: seq<Token>, s2: Sys, s: Sys)
    requires |ts| == |NeedLogits(b.sys, b.seqs)| && b.numPrefill <= |b.seqs| && Sorted(b, s2, s)
    requires |s2.reqs| == |b.sys.reqs| && |s2.pool.pages| == |b.sys.pool.pages| && s2.waiting == b.sys.waiting
    requires forall id: nat {:trigger s2.reqs[id]} :: id < |s2.reqs| ==> s2.reqs[id] == FinalReq(c, b, ts, id)
    requires forall x :: x in s2.running <==> x in b.sys.running && s2.Get(x).status != Finished
    requires |s2.running| <= |b.sys.running| && (b.numPrefill == 0 ==> s2.chunked == b.sys.chunked)
    requires s.running == Alive(s, b.sys.running) + Promoted(s, b.seqs[..b.numPrefill])
    ensures Posted(c, b, ts, s)
  {
    hide NeedLogits, FinalReq, Alive, Promoted, Promote, Partial;
  }

  /** Membership in the final queues, in terms of the final requests. */
  lemma PostedQueues(c: Config, s0: Sys, b: Batch, led: Ledger, kv: Memory, led0: Ledger, ts: seq<Token>, s2: Sys)
    requires Scheduled(c, s0, b, led, kv) && AtRest(c, s0, led0, kv) && |ts| == |NeedLogits(b.sys, b.seqs)|
    requires |s2.reqs| == |b.sys.reqs| && NoDup(s2.running)
    requires forall id: nat {:trigger s2.reqs[id]} :: id < |s2.reqs| ==> s2.reqs[id] == FinalReq(c, b, ts, id)
    requires forall x :: x in s2.running <==>
               x in b.sys.running && (x in NeedLogits(b.sys, b.seqs) ==> s2.Get(x).status != Finished)
    requires s2.chunked == if s0.chunked.Some? && s0.chunked.value in NeedLogits(b.sys, b.seqs)
             && s2.Get(s0.chunked.value).status == Finished
                           then None else s0.chunked
    ensures forall x :: x in s2.running <==> x in b.sys.running && s2.Get(x).status != Finished
    ensures |s2.running| <= |b.sys.running|
    ensures b.numPrefill == 0 ==> s2.chunked == s0.chunked
  {
    hide AtRest, FinalReq, Stops, Scheduled, NeedLogits;
    DeliveriesReady(c, s0, b, led, kv);
    RestIsSteppable(c, s0, led0, kv);
    RestRunning(c, s0, led0, kv);
    forall x | x in b.sys.running
      ensures x in NeedLogits(b.sys, b.seqs)
    {
      BatchSides(c, s0, b, led, kv, x);
      BatchMember(c, s0, b, led, kv, x);
    }
    NoDupCard(s2.running);
    NoDupCard(b.sys.running);
    SubsetCard(ToSet(s2.running), ToSet(b.sys.running));
    if b.numPrefill == 0 && s0.chunked.Some? {
      ChunkOutside(c, s0, b, led, kv, led0);
    }
  }

  /** Without a prefill the chunk is not in the batch. */
  lemma ChunkOutside(c: Config, s0: Sys, b: Batch, led: Ledger, kv: Memory, led0: Ledger)
    requires Scheduled(c, s0, b, led, kv) && AtRest(c, s0, led0, kv) && b.numPrefill == 0 && s0.chunked.Some?
    ensures s0.chunked.value !in NeedLogits(b.sys, b.seqs)
  {
    hide Quiescent, Mid, NeedLogits;
    var id := s0.chunked.value;
    assert Placed(s0, id);
    DeliveriesReady(c, s0, b, led, kv);
    BatchSides(c, s0, b, led, kv, id);
    ScheduledPrefills(c, s0, b, led, kv);
    BatchMember(c, s0, b, led, kv, id);
  }

  lemma {:induction false} TwoPartials(s: Sys, ids: seq<nat>, i: nat, j: nat)
    requires i < j < |ids| && IsPartial(s, ids[i]) && IsPartial(s, ids[j])
    ensures |Partial(s, ids)| >= 2
    decreases |ids|
  {
    PartialMembers(s, ids[1..]);
    if i > 0 {
      TwoPartials(s, ids[1..], i - 1, j - 1);
    } else {
      assert ids[1..][j - 1] == ids[j];
      assert ids[j] in Partial(s, ids[1..]);
    }
  }

  /** From any batch whatever: `postprocess` gets through only if at most one prefill is left short of its prompt. */
  lemma OneChunk(c: Config, b: Batch, ids: seq<nat>, ts: seq<Token>, i: nat, j: nat)
    requires b.numPrefill <= |b.seqs| && i < j < b.numPrefill && Postprocess(c, b, ids, ts).Ok?
    ensures var s := Postprocess(c, b, ids, ts).value;
            !(IsPartial(s, b.seqs[i]) && IsPartial(s, b.seqs[j]))
  {
    hide DeliverAll, CommitAll, Promote, Partial;
    var s := Postprocess(c, b, ids, ts).value;
    var s2 := CommitAll(DeliverAll(c, b.sys, ids, ts).value, b.seqs);
    assert IsPartial(s, b.seqs[i]) == IsPartial(s2, b.seqs[i]) && IsPartial(s, b.seqs[j]) == IsPartial(s2, b.seqs[j]);
    if IsPartial(s2, b.seqs[i]) && IsPartial(s2, b.seqs[j]) {
      TwoPartials(s2, b.seqs[..b.numPrefill], i, j);
    }
  }

  // ---------------------------------------------------------------- back at rest

  ghost predicate Ended(c: Config, s0: Sys, b: Batch, led: Ledger, led0: Ledger, kv0: Memory, ts: seq<Token>, s: Sys) {
    && Scheduled(c, s0, b, led, kv0) && AtRest(c, s0, led0, kv0)
    && |ts| == |NeedLogits(b.sys, b.seqs)| && Posted(c, b, ts, s)
  }

  /** Where a request of the batch stands in it: among the prefills, or among the running requests. */
  lemma BatchSides(c: Config, s0: Sys, b: Batch, led: Ledger, kv: Memory, id: nat)
    requires Scheduled(c, s0, b, led, kv)
    ensures id in b.seqs <==> id in b.seqs[..b.numPrefill] || id in s0.running
    ensures !(id in b.seqs[..b.numPrefill] && id in s0.running)
    ensures id in s0.running ==> id < |b.sys.reqs| && Complete(b.sys, id)
    ensures forall x :: x in b.sys.waiting <==> x in s0.waiting && x !in b.seqs
    ensures NoDup(b.sys.waiting) && b.sys.running == s0.running && b.sys.chunked == s0.chunked
  {
    hide Consistent;
    assert b.seqs == b.seqs[..b.numPrefill] + s0.running;
    if id in s0.running {
      var k :| 0 <= k < |s0.running| && s0.running[k] == id;
      assert b.seqs[b.numPrefill + k] == id;
      forall j | 0 <= j < b.numPrefill
        ensures b.seqs[..b.numPrefill][j] != id
      {
        assert b.seqs[j] != b.seqs[b.numPrefill + k];
      }
    }
  }

  /** A request outside the batch is exactly where it was. */
  lemma OutsideBatch(c: Config, s0: Sys, b: Batch, led: Ledger, led0: Ledger, kv0: Memory, ts: seq<Token>, s: Sys,
                     id: nat)
    requires Ended(c, s0, b, led, led0, kv0, ts, s) && id < |s.reqs| && id !in b.seqs
    ensures Placed(s, id) && Progress(s, id) && ReqLimits(c, s.reqs[id])
  {
    hide Quiescent, Mid, NeedLogits, Stops;
    assert id < |b.sys.reqs|;
    BatchMember(c, s0, b, led, kv0, id);
    FinalCases(c, s0, b, led, kv0, ts, id);
    BatchSides(c, s0, b, led, kv0, id);
    assert Placed(s0, id) && Progress(s0, id) && ReqLimits(c, s0.reqs[id]);
  }

  /** A finished request is in no queue and holds nothing. */
  lemma FinishedInBatch(c: Config, s0: Sys, b: Batch, led: Ledger, led0: Ledger, kv0: Memory, ts: seq<Token>, s: Sys,
                        id: nat)
    requires Ended(c, s0, b, led, led0, kv0, ts, s) && id < |s.reqs| && id in b.seqs && s.reqs[id].status == Finished
    ensures Placed(s, id) && Progress(s, id) && ReqLimits(c, s.reqs[id])
  {
    hide Quiescent, Mid, NeedLogits, Stops;
    assert id < |b.sys.reqs|;
    BatchMember(c, s0, b, led, kv0, id);
    FinalCases(c, s0, b, led, kv0, ts, id);
    BatchSides(c, s0, b, led, kv0, id);
    assert Placed(s0, id) && ReqLimits(c, s0.reqs[id]);
  }

  ghost predicate SafeEntry(b: Batch, id: nat) {
    var r := b.sys.Get(id);
    r.Context() < r.numPrompt || r.Context() + 1 >= |r.tokens|
  }

  /** A live request of the batch is running or chunked, and still within its limits. */
  lemma LiveInBatch(c: Config, s0: Sys, b: Batch, led: Ledger, led0: Ledger, kv0: Memory, ts: seq<Token>, s: Sys,
                    id: nat)
    requires Ended(c, s0, b, led, led0, kv0, ts, s) && id < |s.reqs| && id in b.seqs && s.reqs[id].status != Finished
    ensures Placed(s, id) && ReqLimits(c, s.reqs[id]) && s.reqs[id].newToks == 0
    ensures s.chunked == Some(id) ==> s.reqs[id].cached < s.reqs[id].numPrompt
    ensures id in s.running ==> (s.reqs[id].cached + 1 == |s.reqs[id].tokens|
                                 <==> Complete(b.sys, id) || SafeEntry(b, id))
  {
    hide Quiescent, Mid, NeedLogits, FinalReq, Alive, Promoted;
    assert id < |b.sys.reqs|;
    BatchMember(c, s0, b, led, kv0, id);
    FinalCases(c, s0, b, led, kv0, ts, id);
    BatchSides(c, s0, b, led, kv0, id);
    assert Placed(s0, id) && ReqLimits(c, s0.reqs[id]);
    RestLimits(c, s0, led0, kv0);
    forall k: nat | k < b.numPrefill - 1
      ensures !IsPartial(s, b.seqs[..b.numPrefill][k])
    {
      OnlyLastPartial(c, s0, b, led, kv0, ts, s, k);
    }
  }

  lemma EndedLive(c: Config, s0: Sys, b: Batch, led: Ledger, led0: Ledger, kv0: Memory, ts: seq<Token>, s: Sys)
    requires Ended(c, s0, b, led, led0, kv0, ts, s)
    ensures s.Live() <= c.maxSeqs
    ensures !c.chunked ==> s.chunked.None?
  {
    hide Quiescent, Mid, NeedLogits, FinalReq;
    BatchSides(c, s0, b, led, kv0, 0);
    if b.numPrefill > 0 && !c.chunked {
      var id := b.seqs[b.numPrefill - 1];
      assert Complete(b.sys, id);
      BatchMember(c, s0, b, led, kv0, id);
      FinalCases(c, s0, b, led, kv0, ts, id);
      RestLimits(c, s0, led0, kv0);
      assert ReqLimits(c, s0.reqs[id]);
    }
  }

  lemma EndedQueues(c: Config, s0: Sys, b: Batch, led: Ledger, led0: Ledger, kv0: Memory, ts: seq<Token>, s: Sys)
    requires Ended(c, s0, b, led, led0, kv0, ts, s)
    ensures Queues(s)
    ensures forall id: nat {:trigger ReqLimits(c, s.reqs[id])} :: id < |s.reqs| ==> ReqLimits(c, s.reqs[id])
    ensures forall id: nat {:trigger Progress(s, id)} ::
              id < |s.reqs| && !(id in s.running && id in b.seqs) ==> Progress(s, id)
    ensures forall id: nat :: id < |s.reqs| && id in s.running ==> id in b.seqs
  {
    hide Quiescent, Mid, NeedLogits, FinalReq, Stops;
    forall id: nat | id < |s.reqs|
      ensures Placed(s, id) && ReqLimits(c, s.reqs[id])
      ensures !(id in s.running && id in b.seqs) ==> Progress(s, id)
      ensures id in s.running ==> id in b.seqs
    {
      BatchSides(c, s0, b, led, kv0, id);
      if id !in b.seqs {
        OutsideBatch(c, s0, b, led, led0, kv0, ts, s, id);
      } else if s.reqs[id].status == Finished {
        FinishedInBatch(c, s0, b, led, led0, kv0, ts, s, id);
      } else {
        LiveInBatch(c, s0, b, led, led0, kv0, ts, s, id);
        assert id < |b.sys.reqs|;
        BatchMember(c, s0, b, led, kv0, id);
        FinalCases(c, s0, b, led, kv0, ts, id);
      }
    }
    EndedBounds(c, s0, b, led, led0, kv0, ts, s);
  }

  lemma EndedBounds(c: Config, s0: Sys, b: Batch, led: Ledger, led0: Ledger, kv0: Memory, ts: seq<Token>, s: Sys)
    requires Ended(c, s0, b, led, led0, kv0, ts, s)
    ensures NoDup(s.waiting) && NoDup(s.running) && AllBelowN(s.waiting, |s.reqs|) && AllBelowN(s.running, |s.reqs|)
    ensures s.chunked.Some? ==> s.chunked.value < |s.reqs|
  {
    hide Quiescent, NeedLogits, FinalReq, Consistent;
    BatchSides(c, s0, b, led, kv0, 0);
    forall k | 0 <= k < |s.waiting|
      ensures s.waiting[k] < |s.reqs|
    {
      assert s.waiting[k] in s.waiting;
      assert s.waiting[k] in s0.waiting;
    }
    forall k | 0 <= k < |s.running|
      ensures s.running[k] < |s.reqs|
    {
      assert s.running[k] in s.running;
    }
  }

  /** The exact condition for a step to end at rest: no prefill was cut between its prompt's end and its last token but
      one. */
  lemma PostprocessAtRest(c: Config, s0: Sys, b: Batch, led: Ledger, led0: Ledger, kv0: Memory, kv: Memory,
                          ts: seq<Token>)
    requires Computed(c, s0, b, led, led0, kv0, kv) && |ts| == |NeedLogits(b.sys, b.seqs)|
    ensures Postprocess(c, b, NeedLogits(b.sys, b.seqs), ts).Ok?
    ensures AtRest(c, Postprocess(c, b, NeedLogits(b.sys, b.seqs), ts).value, led, kv) <==> ChunkSafe(b)
  {
    hide Computed, NeedLogits, Postprocess, Nearly, Cut;
    PostprocessNearly(c, s0, b, led, led0, kv0, kv, ts);
  }

  lemma SafeProgress(c: Config, s0: Sys, b: Batch, led: Ledger, led0: Ledger, kv0: Memory, ts: seq<Token>, s: Sys,
                     id: nat)
    requires Ended(c, s0, b, led, led0, kv0, ts, s) && ChunkSafe(b) && id < |s.reqs|
    ensures Progress(s, id)
  {
    hide Quiescent, Mid, NeedLogits, FinalReq, Stops;
    EndedQueues(c, s0, b, led, led0, kv0, ts, s);
    if id in s.running && id in b.seqs {
      BatchSides(c, s0, b, led, kv0, id);
      assert Placed(s, id);
      LiveInBatch(c, s0, b, led, led0, kv0, ts, s, id);
      if id in b.seqs[..b.numPrefill] {
        var k :| 0 <= k < b.numPrefill && b.seqs[..b.numPrefill][k] == id;
        assert SafeEntry(b, b.seqs[k]);
      }
    }
  }

  /** The prefill that broke the rule is now running with more than one token to compute. */
  lemma UnsafeProgress(c: Config, s0: Sys, b: Batch, led: Ledger, led0: Ledger, kv0: Memory, ts: seq<Token>, s: Sys,
                       k: nat)
    requires Ended(c, s0, b, led, led0, kv0, ts, s) && k < b.numPrefill && !SafeEntry(b, b.seqs[k])
    ensures b.seqs[k] in s.running && b.seqs[k] < |s.reqs|
    ensures s.reqs[b.seqs[k]].cached + 1 < |s.reqs[b.seqs[k]].tokens|
    ensures !Progress(s, b.seqs[k])
  {
    hide Quiescent, Mid, NeedLogits, FinalReq, Stops;
    var id := b.seqs[k];
    assert b.seqs[..b.numPrefill][k] == id;
    DeliveriesReady(c, s0, b, led, kv0);
    BatchMember(c, s0, b, led, kv0, id);
    FinalCases(c, s0, b, led, kv0, ts, id);
  }

  // ---------------------------------------------------------------- after an unsafe step

  lemma {:induction false} PromotedLast(s: Sys, ids: seq<nat>)
    requires ids != [] && IsPromoted(s, ids[|ids| - 1])
    ensures Promoted(s, ids) != [] && Promoted(s, ids)[|Promoted(s, ids)| - 1] == ids[|ids| - 1]
  {
    if |ids| > 1 {
      PromotedLast(s, ids[1..]);
    }
  }

  /** A request that still has more than one token to compute was the last prefill, and is the last of the running
      queue. */
  lemma UnsafeIsLast(c: Config, s0: Sys, b: Batch, led: Ledger, led0: Ledger, kv0: Memory, ts: seq<Token>, s: Sys,
                     id: nat)
    requires Ended(c, s0, b, led, led0, kv0, ts, s) && id in s.running && id < |s.reqs|
    requires s.reqs[id].cached + 1 != |s.reqs[id].tokens|
    ensures id == s.running[|s.running| - 1] && s.reqs[id].cached + 1 < |s.reqs[id].tokens| && s.reqs[id].newToks == 0
  {
    hide Quiescent, Mid, NeedLogits, FinalReq, Stops, Alive, Promoted;
    EndedQueues(c, s0, b, led, led0, kv0, ts, s);
    BatchSides(c, s0, b, led, kv0, id);
    assert Placed(s, id);
    LiveInBatch(c, s0, b, led, led0, kv0, ts, s, id);
    assert id < |b.sys.reqs|;
    BatchMember(c, s0, b, led, kv0, id);
    FinalCases(c, s0, b, led, kv0, ts, id);
    var prefills := b.seqs[..b.numPrefill];
    var k :| 0 <= k < |prefills| && prefills[k] == id;
    assert b.seqs[k] == id && k == b.numPrefill - 1;
    assert IsPromoted(s, id);
    PromotedLast(s, prefills);
  }

  /** Whatever the batch was, `postprocess` leaves a state of rest but for one cut request, which is there exactly when
      the batch was not chunk-safe. */
  lemma PostprocessNearly(c: Config, s0: Sys, b: Batch, led: Ledger, led0: Ledger, kv0: Memory, kv: Memory,
                          ts: seq<Token>)
    requires Computed(c, s0, b, led, led0, kv0, kv) && |ts| == |NeedLogits(b.sys, b.seqs)|
    ensures Postprocess(c, b, NeedLogits(b.sys, b.seqs), ts).Ok?
    ensures var s := Postprocess(c, b, NeedLogits(b.sys, b.seqs), ts).value;
            Nearly(c, s, led, kv) && (Cut(s) <==> !ChunkSafe(b))
  {
    hide Quiescent, Mid, NeedLogits, FinalReq, Stops, Postprocess, Posted;
    PostprocessPosted(c, s0, b, led, led0, kv0, kv, ts);
    var s := Postprocess(c, b, NeedLogits(b.sys, b.seqs), ts).value;
    EndedQueues(c, s0, b, led, led0, kv0, ts, s);
    EndedLive(c, s0, b, led, led0, kv0, ts, s);
    EndedPages(c, s0, b, led, led0, kv0, ts, s);
    forall id: nat | id < |s.reqs| && !(Cut(s) && id == s.running[|s.running| - 1])
      ensures Progress(s, id)
    {
      RunningProgress(c, s0, b, led, led0, kv0, ts, s, id);
    }
    if Cut(s) {
      var id := s.running[|s.running| - 1];
      UnsafeIsLast(c, s0, b, led, led0, kv0, ts, s, id);
      if ChunkSafe(b) {
        SafeProgress(c, s0, b, led, led0, kv0, ts, s, id);
      }
    }
    if !ChunkSafe(b) {
      var k :| 0 <= k < b.numPrefill && !SafeEntry(b, b.seqs[k]);
      UnsafeProgress(c, s0, b, led, led0, kv0, ts, s, k);
      UnsafeIsLast(c, s0, b, led, led0, kv0, ts, s, b.seqs[k]);
    }
  }

  lemma EndedPages(c: Config, s0: Sys, b: Batch, led: Ledger, led0: Ledger, kv0: Memory, ts: seq<Token>, s: Sys)
    requires Ended(c, s0, b, led, led0, kv0, ts, s)
    ensures |s.pool.pages| == c.numBlocks
  {
    hide Consistent, Quiescent, FinalReq;
  }

  lemma RunningProgress(c: Config, s0: Sys, b: Batch, led: Ledger, led0: Ledger, kv0: Memory, ts: seq<Token>, s: Sys,
                        id: nat)
    requires Ended(c, s0, b, led, led0, kv0, ts, s) && id < |s.reqs|
    requires !(Cut(s) && id == s.running[|s.running| - 1])
    ensures Progress(s, id)
  {
    hide Quiescent, Mid, NeedLogits, FinalReq, Stops, Posted, Scheduled;
    EndedQueues(c, s0, b, led, led0, kv0, ts, s);
    if id in s.running {
      if s.reqs[id].cached + 1 != |s.reqs[id].tokens| {
        UnsafeIsLast(c, s0, b, led, led0, kv0, ts, s, id);
      } else {
        assert Placed(s, id);
        LiveInBatch(c, s0, b, led, led0, kv0, ts, s, id);
      }
    }
  }
}
