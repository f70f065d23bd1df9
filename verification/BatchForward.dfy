/** The forward pass of one scheduled batch, described request by request. */
module BatchForward {
  import opened Requests
  import opened Pages
  import opened CacheInvariant
  import opened KvMemory
  import opened Growth
  import opened Boundary
  import opened Scheduling
  import opened SchedulerState
  import opened Prefill
  import opened Steps
  import opened Delivery
  import opened Postprocessing
  import opened Store
  import opened Addressing
  import opened Forward

  /** The row of the LM head for a request: the last of its query tokens, `query_start_loc[x + 1] - 1`. */
  function LastRow(reqs: seq<Req>, ids: seq<nat>, id: nat): int
    requires forall k :: 0 <= k < |ids| ==> ids[k] < |reqs|
  {
    var x := IndexOf(ids, id);
    if x < |ids| then QueryStart(reqs, ids, x + 1) - 1 else -1
  }

  /** `ModelRunner.run`: the new memory, and one sampled token for each request that needs logits. */
  ghost function RunBatch(net: Net, c: Config, b: Batch, mems: Layers): (Layers, seq<Token>)
    requires HoldsAllNew(c, b.sys.reqs, b.seqs) && |mems| == net.layers
  {
    PlacesGood(c, b.sys.reqs, b.seqs);
    var ps := BatchPlaces(b.sys.reqs, b.seqs);
    var (mems', h) := RunLayers(net, c, b.sys.reqs, ps, mems, Embedded(net, c, b.sys.reqs, ps), 0);
    var ids := NeedLogits(b.sys, b.seqs);
    (mems', seq(|ids|, k requires 0 <= k < |ids| =>
      var row := LastRow(b.sys.reqs, b.seqs, ids[k]);
      net.head(if 0 <= row < |h| then h[row] else [])))
  }

  // ---------------------------------------------------------------- one step

  lemma ScheduledHoldsAllNew(c: Config, s0: Sys, b: Batch, led: Ledger, led0: Ledger, kv: Memory)
    requires Scheduled(c, s0, b, led, kv) && AtRest(c, s0, led0, kv)
    ensures HoldsAllNew(c, b.sys.reqs, b.seqs)
  {
    hide World, KvPending, Quiescent;
    forall id: nat | id < |b.sys.reqs|
      ensures Covered(c, b.sys.reqs[id]) && (b.sys.reqs[id].newToks > 0 ==> id in b.seqs)
    {
      assert Aligned(c, b.sys.pool.pages, b.sys.reqs[id]);
      ContextBounded(c, b.sys.pool, b.sys.reqs, led, id);
      assert MidReq(s0, b.sys, b.seqs, id);
      assert Progress(s0, id);
    }
  }

  lemma ContextBounded(c: Config, pool: Pool, reqs: seq<Req>, led: Ledger, id: nat)
    requires World(c, pool, reqs, led) && id < |reqs|
    ensures reqs[id].Context() <= |reqs[id].tokens|
  {
    assert TableOk(c, pool.pages, led, reqs[id]);
  }

  lemma EmbeddedRight(net: Net, c: Config, reqs: seq<Req>, ps: seq<Place>)
    requires AllGood(c, reqs, ps)
    ensures HiddenRight(net, c, reqs, ps, Embedded(net, c, reqs, ps), 0)
  {
    forall n: nat | n < |ps|
      ensures Embedded(net, c, reqs, ps)[n] == Hidden(net, 0, PlacePrefix(c, reqs, ps[n]))
    {
      assert GoodPlace(c, reqs, ps[n]);
    }
  }

  /** The last query token of a complete request stands at its logits row and ends its tokens. */
  lemma LastRowPlace(c: Config, reqs: seq<Req>, ids: seq<nat>, id: nat)
    requires HoldsAllNew(c, reqs, ids) && id in ids && reqs[id].newToks > 0 && reqs[id].Context() == |reqs[id].tokens|
    ensures var row := LastRow(reqs, ids, id);
            0 <= row < |BatchPlaces(reqs, ids)| && BatchPlaces(reqs, ids)[row] == Place(id, |reqs[id].tokens| - 1)
  {
    var x := IndexOf(ids, id);
    QueryStartStep(reqs, ids, x);
    PlaceAt(reqs, ids, x, |reqs[id].tokens| - 1);
  }

  lemma {:induction false} QueryStartStep(reqs: seq<Req>, ids: seq<nat>, x: nat)
    requires x < |ids| && forall k :: 0 <= k < |ids| ==> ids[k] < |reqs|
    ensures QueryStart(reqs, ids, x + 1) == QueryStart(reqs, ids, x) + reqs[ids[x]].newToks
  {
    if x > 0 {
      QueryStartStep(reqs, ids[1..], x - 1);
    }
  }

  /** Every sampled token is the one the request would sample alone. */
  ghost predicate TokensRight(net: Net, b: Batch, ts: seq<Token>) {
    var ids := NeedLogits(b.sys, b.seqs);
    && |ts| == |ids|
    && forall k :: 0 <= k < |ids| ==>
         ids[k] < |b.sys.reqs| && b.sys.reqs[ids[k]].tokens != [] && ts[k] == NextToken(net, b.sys.reqs[ids[k]].tokens)
  }

  lemma BatchTokens(net: Net, c: Config, s0: Sys, b: Batch, led: Ledger, kv0: Memory, mems: Layers, h: seq<Vec>,
                    ts: seq<Token>)
    requires Scheduled(c, s0, b, led, kv0) && HoldsAllNew(c, b.sys.reqs, b.seqs)
    requires AllGood(c, b.sys.reqs, BatchPlaces(b.sys.reqs, b.seqs))
    requires HiddenRight(net, c, b.sys.reqs, BatchPlaces(b.sys.reqs, b.seqs), h, net.layers)
    requires var ids := NeedLogits(b.sys, b.seqs);
             |ts| == |ids| && forall k :: 0 <= k < |ids| ==>
               var row := LastRow(b.sys.reqs, b.seqs, ids[k]);
               ts[k] == net.head(if 0 <= row < |h| then h[row] else [])
    ensures TokensRight(net, b, ts)
  {
    hide Mid, NeedLogits, LastRow, BatchPlaces, HoldsAllNew, Hidden, Scheduled;
    DeliveriesReady(c, s0, b, led, kv0);
    var ids := NeedLogits(b.sys, b.seqs);
    forall k | 0 <= k < |ids|
      ensures ids[k] < |b.sys.reqs| && b.sys.reqs[ids[k]].tokens != []
      ensures ts[k] == NextToken(net, b.sys.reqs[ids[k]].tokens)
    {
      var id := ids[k];
      assert id in NeedLogits(b.sys, b.seqs);
      BatchMember(c, s0, b, led, kv0, id);
      LastRowPlace(c, b.sys.reqs, b.seqs, id);
      var row := LastRow(b.sys.reqs, b.seqs, id);
      var pl := BatchPlaces(b.sys.reqs, b.seqs)[row];
      assert GoodPlace(c, b.sys.reqs, pl);
      assert PlacePrefix(c, b.sys.reqs, pl) == b.sys.reqs[id].tokens;
      assert h[row] == Hidden(net, net.layers, PlacePrefix(c, b.sys.reqs, pl));
    }
  }

  /** The forward pass over shared, just-published pages computes the private result of every request. */
  lemma RunBatchRight(net: Net, c: Config, s0: Sys, b: Batch, led: Ledger, led0: Ledger, kv: Memory, mems: Layers)
      returns (kv': Memory)
    requires Scheduled(c, s0, b, led, kv) && AtRest(c, s0, led0, kv) && Holds(net, mems, kv)
    ensures HoldsAllNew(c, b.sys.reqs, b.seqs)
    ensures var (mems', ts) := RunBatch(net, c, b, mems);
            Holds(net, mems', kv') && TokensRight(net, b, ts)
    ensures Quiescent(c, b.sys.pool, b.sys.reqs, led, kv')
    ensures kv' == StoreAll(kv, BatchWrites(c, b.sys.reqs, b.seqs))
  {
    hide World, AtRest, HiddenRight, LayerHolds, RunLayers, AllAligned, DistinctSlots;
    ScheduledHoldsAllNew(c, s0, b, led, led0, kv);
    PlacesGood(c, b.sys.reqs, b.seqs);
    var ps := BatchPlaces(b.sys.reqs, b.seqs);
    kv' := StoreAll(kv, BatchWrites(c, b.sys.reqs, b.seqs));
    BatchStored(c, b.sys.pool, b.sys.reqs, led, kv, b.seqs);
    WritesComplete(c, b.sys.pool, b.sys.reqs, led, kv, kv');
    BatchDistinct(c, b.sys.pool, b.sys.reqs, led, b.seqs);
    EmbeddedRight(net, c, b.sys.reqs, ps);
    RunLayersRight(net, c, b.sys.pool, b.sys.reqs, led, b.seqs, mems, kv, kv', Embedded(net, c, b.sys.reqs, ps), 0);
    var v := RunLayers(net, c, b.sys.reqs, ps, mems, Embedded(net, c, b.sys.reqs, ps), 0);
    BatchTokens(net, c, s0, b, led, kv, v.0, v.1, RunBatch(net, c, b, mems).1);
  }
}
