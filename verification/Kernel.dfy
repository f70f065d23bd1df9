/** The forward pass as it runs: from prepared arrays and an attention plan, with no request in sight. */
module Kernel {
  import opened Arith
  import opened Seqs
  import opened Requests
  import opened Scheduling
  import opened Store
  import opened Addressing
  import opened ModelInput
  import opened Metadata
  import opened Plans
  import opened Delivery
  import opened Forward
  import opened BatchForward

  // ---------------------------------------------------------------- the pass over arrays

  function KernelWrites(net: Net, slots: seq<int>, h: seq<Vec>, l: nat): (ws: seq<Write<KV>>)
    ensures |ws| == |h|
  {
    seq(|h|, n requires 0 <= n < |h| => Write(if n < |slots| then slots[n] else -1, net.keyval(l, h[n])))
  }

  function KernelReads(c: Config, plan: Plan, n: int, mem: seq<KV>): seq<KV> {
    var slots := PlanReads(c, plan, n);
    seq(|slots|, q requires 0 <= q < |slots| => if 0 <= slots[q] < |mem| then mem[slots[q]] else NO_KV)
  }

  function KernelOut(net: Net, c: Config, plan: Plan, h: seq<Vec>, mem: seq<KV>, l: nat): (r: seq<Vec>)
    ensures |r| == |h|
  {
    seq(|h|, n requires 0 <= n < |h| => net.attend(l, h[n], KernelReads(c, plan, n, mem)))
  }

  /** Per layer: store through the slot mapping, attend through the plan. */
  function KernelLayers(net: Net, c: Config, slots: seq<int>, plan: Plan, mems: Layers, h: seq<Vec>,
                        l: nat): (r: (Layers, seq<Vec>))
    requires l <= net.layers == |mems|
    ensures |r.1| == |h|
    decreases net.layers - l
  {
    if l == net.layers then (mems, h)
    else
      var mem := StoreAll(mems[l], KernelWrites(net, slots, h, l));
      KernelLayers(net, c, slots, plan, mems[l := mem], KernelOut(net, c, plan, h, mem, l), l + 1)
  }

  function KernelEmbed(net: Net, input: Input): seq<Vec> {
    seq(|input.inputIds|, n requires 0 <= n < |input.inputIds| =>
      net.embed(input.inputIds[n], if n < |input.positions| then Max(input.positions[n], 0) else 0))
  }

  /** The LM head on the rows `query_start_loc[1:] - 1` that need logits; without a list, on all of them. */
  function KernelHead(net: Net, input: Input, h: seq<Vec>): seq<Token> {
    var q := input.common.queryStartLoc;
    var rows := if input.needLogits.Present? then input.needLogits.value
        else seq(Max(|q| - 1, 0), x requires 0 <= x => x);
    seq(|rows|, k requires 0 <= k < |rows| =>
      var row := if rows[k] + 1 < |q| then q[rows[k] + 1] - 1 else -1;
      net.head(if 0 <= row < |h| then h[row] else []))
  }

  /** `ModelRunner.run` on a prepared batch. */
  function RunKernel(net: Net, c: Config, input: Input, unified: bool, mems: Layers): Result<(Layers, seq<Token>)>
    requires |mems| == net.layers
  {
    var plan :- BuildPlan(c, input.common, unified);
    var (mems', h) := KernelLayers(net, c, input.common.slotMapping, plan, mems, KernelEmbed(net, input), 0);
    Ok((mems', KernelHead(net, input, h)))
  }

  // ---------------------------------------------------------------- arrays and places

  function RowsOf(reqs: seq<Req>, ids: seq<nat>): (rs: seq<Req>)
    requires forall k :: 0 <= k < |ids| ==> ids[k] < |reqs|
    ensures |rs| == |ids|
    ensures forall k :: 0 <= k < |ids| ==> rs[k] == reqs[ids[k]]
  {
    seq(|ids|, k requires 0 <= k < |ids| => reqs[ids[k]])
  }

  lemma {:induction false} StartsAgree(reqs: seq<Req>, ids: seq<nat>, x: nat)
    requires x <= |ids| && forall k :: 0 <= k < |ids| ==> ids[k] < |reqs|
    ensures QueryStart(reqs, ids, x) == QueryStarts(RowsOf(reqs, ids))[x]
  {
    if x > 0 {
      StartsAgree(reqs, ids, x - 1);
      QueryStartStep(reqs, ids, x - 1);
      QueryStartNext(RowsOf(reqs, ids), x - 1);
    }
  }

  lemma {:induction false} PlacesCount(reqs: seq<Req>, ids: seq<nat>)
    requires forall k :: 0 <= k < |ids| ==> ids[k] < |reqs|
    ensures |BatchPlaces(reqs, ids)| == QueryStart(reqs, ids, |ids|)
  {
    if ids != [] {
      PlacesCount(reqs, ids[1..]);
    }
  }

  /** The entries of the arrays at index `n` are those of new token `k` of `r`. */
  ghost predicate EntryIs(c: Config, rs: seq<Req>, n: nat, r: Req, k: nat)
    requires Covered(c, r) && k < r.newToks
  {
    && n < |FlatTokens(rs)| == |FlatPositions(rs)| == |FlatSlots(c, rs)|
    && FlatTokens(rs)[n] == r.tokens[r.cached + k]
    && FlatPositions(rs)[n] == r.cached + k
    && FlatSlots(c, rs)[n] == PointwiseSlots(c, r)[k]
  }

  ghost predicate AllPaged(c: Config, rs: seq<Req>) {
    forall y :: 0 <= y < |rs| ==> Covered(c, rs[y]) && rs[y].table != []
  }

  lemma LastFlat(c: Config, rs: seq<Req>, k: nat)
    requires AllPaged(c, rs) && rs != [] && Covered(c, Back(rs)) && k < Back(rs).newToks
    ensures EntryIs(c, rs, NewTokens(Front(rs)) + k, Back(rs), k)
  {
    hide RequestSlots, PointwiseSlots, Covered, Slice, Interval, NewTokens, FlatTokens, FlatPositions, FlatSlots;
    var r, n := Back(rs), NewTokens(Front(rs));
    FlatLengths(c, rs);
    FlatLengths(c, Front(rs));
    IntervalsArePointwise(c, r);
    SliceAt(c, r, k);
    FlatUnfold(c, rs);
    TailAt(FlatTokens(Front(rs)), Slice(r.tokens, r.cached, r.Context()), k);
    TailAt(FlatPositions(Front(rs)), Interval(r.cached, r.Context()), k);
    TailAt(FlatSlots(c, Front(rs)), RequestSlots(c, r), k);
  }

  lemma TailAt<T>(a: seq<T>, b: seq<T>, k: nat)
    requires k < |b|
    ensures (a + b)[|a| + k] == b[k]
  {
  }

  lemma FlatUnfold(c: Config, rs: seq<Req>)
    requires rs != []
    ensures FlatTokens(rs) == FlatTokens(Front(rs)) + Slice(Back(rs).tokens, Back(rs).cached, Back(rs).Context())
    ensures FlatPositions(rs) == FlatPositions(Front(rs)) + Interval(Back(rs).cached, Back(rs).Context())
    ensures FlatSlots(c, rs) == FlatSlots(c, Front(rs)) + RequestSlots(c, Back(rs))
  {
  }

  lemma SliceAt(c: Config, r: Req, k: nat)
    requires Covered(c, r) && k < r.newToks
    ensures |Slice(r.tokens, r.cached, r.Context())| == r.newToks
    ensures Slice(r.tokens, r.cached, r.Context())[k] == r.tokens[r.cached + k]
  {
  }

  lemma FrontFlat(c: Config, rs: seq<Req>, n: nat, r: Req, k: nat)
    requires AllPaged(c, rs) && rs != [] && Covered(c, r) && k < r.newToks && EntryIs(c, Front(rs), n, r, k)
    ensures EntryIs(c, rs, n, r, k)
  {
    hide RequestSlots, PointwiseSlots, Covered, Slice, Interval;
    FlatLengths(c, rs);
    FlatLengths(c, Front(rs));
  }

  /** The entries of the arrays that belong to request `x`. */
  lemma {:induction false} FlatAt(c: Config, rs: seq<Req>, x: nat, k: nat)
    requires AllPaged(c, rs) && x < |rs| && Covered(c, rs[x]) && k < rs[x].newToks
    ensures EntryIs(c, rs, NewTokens(rs[..x]) + k, rs[x], k)
    decreases |rs|
  {
    hide EntryIs, NewTokens, Covered;
    if x == |rs| - 1 {
      assert rs[..x] == Front(rs);
      LastFlat(c, rs, k);
    } else {
      FlatAt(c, Front(rs), x, k);
      assert Front(rs)[..x] == rs[..x];
      FrontFlat(c, rs, NewTokens(rs[..x]) + k, rs[x], k);
    }
  }

  /** The `n`-th entry of each array describes the `n`-th query token of the batch. */
  lemma PlaceEntries(c: Config, reqs: seq<Req>, ids: seq<nat>, n: nat)
    requires HoldsAllNew(c, reqs, ids) && n < |BatchPlaces(reqs, ids)|
    requires forall k :: 0 <= k < |ids| ==> reqs[ids[k]].table != []
    ensures var rs, pl := RowsOf(reqs, ids), BatchPlaces(reqs, ids)[n];
            && GoodPlace(c, reqs, pl)
            && |FlatTokens(rs)| == |FlatPositions(rs)| == |FlatSlots(c, rs)| == |BatchPlaces(reqs, ids)|
            && FlatTokens(rs)[n] == reqs[pl.id].tokens[pl.pos]
            && FlatPositions(rs)[n] == pl.pos
            && FlatSlots(c, rs)[n] == PlaceSlot(c, reqs, pl)
  {
    hide FlatTokens, FlatPositions, FlatSlots;
    PlacesGood(c, reqs, ids);
    var rs, pl := RowsOf(reqs, ids), BatchPlaces(reqs, ids)[n];
    var x := PlaceSource(reqs, ids, n);
    StartsAgree(reqs, ids, x);
    PlacesCount(reqs, ids);
    StartsAgree(reqs, ids, |ids|);
    assert rs[..|rs|] == rs;
    FlatAt(c, rs, x, pl.pos - reqs[pl.id].cached);
    FlatLengths(c, rs);
  }

  /** What a query token reads through the plan is what it reads through its own block table. */
  lemma PlaceReads(c: Config, reqs: seq<Req>, ids: seq<nat>, m: nat, unified: bool, n: nat, mem: seq<KV>)
    requires HoldsAllNew(c, reqs, ids) && n < |BatchPlaces(reqs, ids)| && Ready(c, RowsOf(reqs, ids), m)
    requires GoodPlace(c, reqs, BatchPlaces(reqs, ids)[n])
    ensures var plan := BuildPlan(c, Arrays(c, RowsOf(reqs, ids), m).common, unified);
            plan.Ok? && KernelReads(c, plan.value, n, mem) == Reads(c, reqs, BatchPlaces(reqs, ids)[n], mem)
  {
    hide BuildPlan, PlanReads, Arrays;
    var rs, pl := RowsOf(reqs, ids), BatchPlaces(reqs, ids)[n];
    var x := PlaceSource(reqs, ids, n);
    StartsAgree(reqs, ids, x);
    PlanReadsContext(c, rs, m, unified, x, n);
  }

  // ---------------------------------------------------------------- the two passes agree

  lemma WritesAgree(net: Net, c: Config, reqs: seq<Req>, ids: seq<nat>, m: nat, h: seq<Vec>, l: nat)
    requires HoldsAllNew(c, reqs, ids) && Ready(c, RowsOf(reqs, ids), m)
    requires AllGood(c, reqs, BatchPlaces(reqs, ids)) && |h| == |BatchPlaces(reqs, ids)|
    ensures KernelWrites(net, FlatSlots(c, RowsOf(reqs, ids)), h, l)
            == LayerWrites(net, c, reqs, BatchPlaces(reqs, ids), h, l)
  {
    hide FlatSlots, PlaceSlot, BatchPlaces;
    var rs := RowsOf(reqs, ids);
    TablesHeld(c, reqs, ids, m);
    forall n: nat | n < |h|
      ensures n < |FlatSlots(c, rs)| && FlatSlots(c, rs)[n] == PlaceSlot(c, reqs, BatchPlaces(reqs, ids)[n])
    {
      PlaceEntries(c, reqs, ids, n);
    }
  }

  lemma TablesHeld(c: Config, reqs: seq<Req>, ids: seq<nat>, m: nat)
    requires (forall k :: 0 <= k < |ids| ==> ids[k] < |reqs|) && Ready(c, RowsOf(reqs, ids), m)
    ensures forall k :: 0 <= k < |ids| ==> reqs[ids[k]].table != []
  {
    forall k | 0 <= k < |ids|
      ensures reqs[ids[k]].table != []
    {
      ReadyRow(c, RowsOf(reqs, ids), m, k);
    }
  }

  lemma OutAgrees(net: Net, c: Config, reqs: seq<Req>, ids: seq<nat>, m: nat, unified: bool, plan: Plan, h: seq<Vec>,
                  mem: seq<KV>, l: nat)
    requires HoldsAllNew(c, reqs, ids) && Ready(c, RowsOf(reqs, ids), m)
    requires BuildPlan(c, Arrays(c, RowsOf(reqs, ids), m).common, unified) == Ok(plan)
    requires AllGood(c, reqs, BatchPlaces(reqs, ids)) && |h| == |BatchPlaces(reqs, ids)|
    ensures KernelOut(net, c, plan, h, mem, l) == LayerOut(net, c, reqs, BatchPlaces(reqs, ids), h, mem, l)
  {
    hide BuildPlan, KernelReads, Reads, BatchPlaces, Arrays;
    var ps := BatchPlaces(reqs, ids);
    forall n: nat | n < |h|
      ensures KernelReads(c, plan, n, mem) == Reads(c, reqs, ps[n], mem)
    {
      PlaceReads(c, reqs, ids, m, unified, n, mem);
    }
  }

  lemma {:induction false} LayersAgree(net: Net, c: Config, reqs: seq<Req>, ids: seq<nat>, m: nat, unified: bool,
                                       plan: Plan,
                                       mems: Layers, h: seq<Vec>, l: nat)
    requires HoldsAllNew(c, reqs, ids) && Ready(c, RowsOf(reqs, ids), m)
    requires BuildPlan(c, Arrays(c, RowsOf(reqs, ids), m).common, unified) == Ok(plan)
    requires AllGood(c, reqs, BatchPlaces(reqs, ids)) && |h| == |BatchPlaces(reqs, ids)|
    requires l <= net.layers == |mems|
    ensures KernelLayers(net, c, FlatSlots(c, RowsOf(reqs, ids)), plan, mems, h, l)
            == RunLayers(net, c, reqs, BatchPlaces(reqs, ids), mems, h, l)
    decreases net.layers - l
  {
    hide BuildPlan, KernelWrites, LayerWrites, KernelOut, LayerOut, BatchPlaces, FlatSlots, Arrays, Ready, Covered;
    if l < net.layers {
      var ps := BatchPlaces(reqs, ids);
      WritesAgree(net, c, reqs, ids, m, h, l);
      var mem := StoreAll(mems[l], LayerWrites(net, c, reqs, ps, h, l));
      OutAgrees(net, c, reqs, ids, m, unified, plan, h, mem, l);
      LayersAgree(net, c, reqs, ids, m, unified, plan, mems[l := mem], LayerOut(net, c, reqs, ps, h, mem, l), l + 1);
    }
  }

  lemma EmbedAgrees(net: Net, c: Config, reqs: seq<Req>, ids: seq<nat>, m: nat)
    requires HoldsAllNew(c, reqs, ids) && Ready(c, RowsOf(reqs, ids), m)
    requires AllGood(c, reqs, BatchPlaces(reqs, ids))
    ensures KernelEmbed(net, Arrays(c, RowsOf(reqs, ids), m)) == Embedded(net, c, reqs, BatchPlaces(reqs, ids))
  {
    hide FlatSlots, FlatTokens, FlatPositions, BatchPlaces, PlaceSlot;
    var rs, ps := RowsOf(reqs, ids), BatchPlaces(reqs, ids);
    TablesHeld(c, reqs, ids, m);
    forall n: nat | n < |ps|
      ensures n < |FlatTokens(rs)| && n < |FlatPositions(rs)| && FlatTokens(rs)[n] == reqs[ps[n].id].tokens[ps[n].pos]
              && FlatPositions(rs)[n] == ps[n].pos
    {
      PlaceEntries(c, reqs, ids, n);
    }
    EmbedLength(c, reqs, ids, m);
  }

  lemma EmbedLength(c: Config, reqs: seq<Req>, ids: seq<nat>, m: nat)
    requires HoldsAllNew(c, reqs, ids) && Ready(c, RowsOf(reqs, ids), m)
    ensures |FlatTokens(RowsOf(reqs, ids))| == |BatchPlaces(reqs, ids)|
  {
    hide FlatSlots, FlatTokens, FlatPositions;
    var rs := RowsOf(reqs, ids);
    TablesHeld(c, reqs, ids, m);
    FlatLengths(c, rs);
    PlacesCount(reqs, ids);
    StartsAgree(reqs, ids, |ids|);
    assert rs[..|rs|] == rs;
  }

  // ---------------------------------------------------------------- the rows that need logits

  lemma {:induction false} NeedLogitsSnoc(s: Sys, ids: seq<nat>, id: nat)
    ensures NeedLogits(s, ids + [id]) == NeedLogits(s, ids) + NeedLogits(s, [id])
  {
    if ids == [] {
      assert [] + [id] == [id];
    } else {
      NeedLogitsSnoc(s, ids[1..], id);
      assert (ids + [id])[1..] == ids[1..] + [id];
    }
  }

  /** The indices sent along with the batch pick out exactly the requests that need logits. */
  lemma {:induction false} RowsAgree(s: Sys, ids: seq<nat>)
    requires forall k :: 0 <= k < |ids| ==> ids[k] < |s.reqs|
    ensures var rows, need := LogitsRows(RowsOf(s.reqs, ids)), NeedLogits(s, ids);
            |rows| == |need| && forall k :: 0 <= k < |rows| ==> rows[k] < |ids| && need[k] == ids[rows[k]]
    decreases |ids|
  {
    if ids != [] {
      var n := |ids| - 1;
      RowsAgree(s, ids[..n]);
      NeedLogitsSnoc(s, ids[..n], ids[n]);
      assert ids == ids[..n] + [ids[n]];
      assert Front(RowsOf(s.reqs, ids)) == RowsOf(s.reqs, ids[..n]);
      assert [ids[n]][1..] == [];
    }
  }

  lemma IndexOfUnique(ids: seq<nat>, k: nat)
    requires NoDup(ids) && k < |ids|
    ensures IndexOf(ids, ids[k]) == k
  {
    var x := IndexOf(ids, ids[k]);
    IndexOfFound(ids, ids[k]);
    assert x < |ids| && ids[x] == ids[k];
  }

  lemma {:induction false} IndexOfFound(ids: seq<nat>, id: nat)
    requires id in ids
    ensures IndexOf(ids, id) < |ids| && ids[IndexOf(ids, id)] == id
  {
    if ids[0] != id {
      IndexOfFound(ids[1..], id);
    }
  }

  /** The row the head reads for the `k`-th request that needs logits. */
  lemma HeadRow(c: Config, b: Batch, k: nat)
    requires HoldsAllNew(c, b.sys.reqs, b.seqs) && k < |LogitsRows(RowsOf(b.sys.reqs, b.seqs))|
    ensures var rs, ids := RowsOf(b.sys.reqs, b.seqs), NeedLogits(b.sys, b.seqs);
            var x := LogitsRows(rs)[k];
            && k < |ids| && x < |b.seqs|
            && QueryStarts(rs)[x + 1] - 1 == LastRow(b.sys.reqs, b.seqs, ids[k])
  {
    hide NeedLogits, LogitsRows, QueryStarts, QueryStart, Covered;
    RowsAgree(b.sys, b.seqs);
    var x := LogitsRows(RowsOf(b.sys.reqs, b.seqs))[k];
    IndexOfUnique(b.seqs, x);
    StartsAgree(b.sys.reqs, b.seqs, x + 1);
  }

  lemma HeadInput(c: Config, rs: seq<Req>, m: nat)
    requires m <= |rs| && Paged(rs)
    ensures Arrays(c, rs, m).needLogits == Present(LogitsRows(rs))
            && Arrays(c, rs, m).common.queryStartLoc == QueryStarts(rs)
  {
  }

  /** The hidden state the head reads for a request is the one of its last query token. */
  lemma HeadAgrees(net: Net, c: Config, b: Batch, m: nat, h: seq<Vec>)
    requires HoldsAllNew(c, b.sys.reqs, b.seqs) && Ready(c, RowsOf(b.sys.reqs, b.seqs), m) && m <= |b.seqs|
    ensures var tokens, ids := KernelHead(net, Arrays(c, RowsOf(b.sys.reqs, b.seqs), m), h), NeedLogits(b.sys, b.seqs);
            |tokens| == |ids| && forall k :: 0 <= k < |ids| ==>
              var row := LastRow(b.sys.reqs, b.seqs, ids[k]);
              tokens[k] == net.head(if 0 <= row < |h| then h[row] else [])
  {
    hide NeedLogits, LogitsRows, QueryStarts, Arrays, LastRow, Ready, Paged, Covered;
    var rs := RowsOf(b.sys.reqs, b.seqs);
    ReadyPrepared(c, rs, m);
    HeadInput(c, rs, m);
    RowsAgree(b.sys, b.seqs);
    forall k: nat | k < |LogitsRows(rs)|
      ensures k < |NeedLogits(b.sys, b.seqs)| && LogitsRows(rs)[k] < |b.seqs|
      ensures QueryStarts(rs)[LogitsRows(rs)[k] + 1] - 1 == LastRow(b.sys.reqs, b.seqs, NeedLogits(b.sys, b.seqs)[k])
    {
      HeadRow(c, b, k);
    }
  }

  /** Running the arrays is running the batch: same memory, same tokens, on every attention route. */
  lemma KernelIsBatch(net: Net, c: Config, b: Batch, m: nat, unified: bool, mems: Layers)
    requires HoldsAllNew(c, b.sys.reqs, b.seqs) && Ready(c, RowsOf(b.sys.reqs, b.seqs), m) && |mems| == net.layers
    ensures RunKernel(net, c, Arrays(c, RowsOf(b.sys.reqs, b.seqs), m), unified, mems) == Ok(RunBatch(net, c, b, mems))
  {
    hide KernelLayers, RunLayers, KernelEmbed, Embedded, KernelHead, LastRow, NeedLogits, BuildPlan, FlatSlots,
         BatchPlaces, Ready, Covered, Arrays;
    var rs := RowsOf(b.sys.reqs, b.seqs);
    PlacesGood(c, b.sys.reqs, b.seqs);
    var ps := BatchPlaces(b.sys.reqs, b.seqs);
    PlanFound(c, rs, m, unified);
    var plan := BuildPlan(c, Arrays(c, rs, m).common, unified).value;
    EmbedAgrees(net, c, b.sys.reqs, b.seqs, m);
    var h := Embedded(net, c, b.sys.reqs, ps);
    LayersAgree(net, c, b.sys.reqs, b.seqs, m, unified, plan, mems, h, 0);
    var out := RunLayers(net, c, b.sys.reqs, ps, mems, h, 0);
    HeadAgrees(net, c, b, m, out.1);
    assert KernelHead(net, Arrays(c, rs, m), out.1) == RunBatch(net, c, b, mems).1;
    ArraysSlots(c, rs, m);
  }

  lemma ArraysSlots(c: Config, rs: seq<Req>, m: nat)
    requires m <= |rs|
    ensures Arrays(c, rs, m).common.slotMapping == FlatSlots(c, rs)
  {
  }

  lemma PlanFound(c: Config, rs: seq<Req>, m: nat, unified: bool)
    requires Ready(c, rs, m)
    ensures m <= |rs| && BuildPlan(c, Arrays(c, rs, m).common, unified).Ok?
  {
    hide Arrays, BuildPlan;
    PlanOfBatch(c, rs, m, unified, true);
    ArraysShape(c, rs, m);
  }
}
