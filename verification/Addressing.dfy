/** From a scheduled batch to slots: which slot each token is written to, and why that is safe. */
module Addressing {
  import opened Arith
  import opened Seqs
  import opened Requests
  import opened Pages
  import opened CacheInvariant
  import opened KvMemory
  import opened Boundary
  import opened Store

  /** Slot of position `p`: `block_table[p // B] * B + p % B`. */
  function SlotOf(c: Config, r: Req, p: nat): nat
    requires p / c.B < |r.table|
  {
    Slot(c, r.table[p / c.B], p % c.B)
  }

  lemma SlotOfIsProduct(c: Config, r: Req, p: nat)
    requires p / c.B < |r.table|
    ensures SlotOf(c, r, p) == r.table[p / c.B] * c.B + p % c.B
  {
    StartIsProduct(r.table[p / c.B], c.B);
  }

  /** The table reaches as far as the context. */
  predicate Covered(c: Config, r: Req) {
    |r.table| == Ceil(r.Context(), c.B) && r.Context() <= |r.tokens|
  }

  lemma PositionPage(c: Config, r: Req, p: nat)
    requires Covered(c, r) && p < r.Context()
    ensures p / c.B < |r.table|
    ensures Start(p / c.B, c.B) + p % c.B == p && p % c.B < c.B
  {
    DivStart(p, c.B);
    CeilBounds(r.Context(), c.B);
    StartStrict(p / c.B, |r.table|, c.B);
  }

  /** A new token of request `id`. */
  ghost predicate NewPosition(reqs: seq<Req>, id: nat, p: nat) {
    id < |reqs| && reqs[id].cached <= p < reqs[id].Context()
  }

  /** Write safety, first half: the slots of different new tokens are different. */
  lemma NewSlotsDistinct(c: Config, pool: Pool, reqs: seq<Req>, led: Ledger, id: nat, p: nat, id': nat, p': nat)
    requires World(c, pool, reqs, led) && NewPosition(reqs, id, p) && NewPosition(reqs, id', p')
    requires Covered(c, reqs[id]) && Covered(c, reqs[id'])
    requires (id, p) != (id', p')
    ensures p / c.B < |reqs[id].table| && p' / c.B < |reqs[id'].table|
    ensures SlotOf(c, reqs[id], p) != SlotOf(c, reqs[id'], p')
  {
    PositionPage(c, reqs[id], p);
    PositionPage(c, reqs[id'], p');
    assert TableOk(c, pool.pages, led, reqs[id]);
    if id != id' {
      assert Share(c, reqs[id], reqs[id']);
    }
    SlotInjective(c, reqs[id].table[p / c.B], p % c.B, reqs[id'].table[p' / c.B], p' % c.B);
  }

  /** Write safety, second half: a write is in range, and on a published page it writes exactly what the page stands
      for. */
  lemma NewSlotRight(c: Config, pool: Pool, reqs: seq<Req>, led: Ledger, id: nat, p: nat)
    requires World(c, pool, reqs, led) && NewPosition(reqs, id, p) && Covered(c, reqs[id])
    ensures p / c.B < |reqs[id].table| && SlotOf(c, reqs[id], p) < Start(|pool.pages|, c.B)
    ensures var b := reqs[id].table[p / c.B];
            b < |pool.pages| && (pool.pages[b].Published()
                                 ==> Expected(c, led, pool.pages[b], p % c.B) == reqs[id].tokens[..p + 1])
  {
    PositionPage(c, reqs[id], p);
    assert TableOk(c, pool.pages, led, reqs[id]);
    var i := p / c.B;
    SlotBelow(c, reqs[id].table[i], p % c.B, |pool.pages|);
    assert EntryOk(c, pool.pages, led, reqs[id], i);
  }

  /** A slot that another request counts as cached is written only with the very prefix that request has there:
      it belongs to a page published and claimed within this step. */
  lemma CachedSlotAgrees(c: Config, pool: Pool, reqs: seq<Req>, led: Ledger, id: nat, p: nat, id': nat, q: nat)
    requires World(c, pool, reqs, led) && NewPosition(reqs, id, p) && Covered(c, reqs[id])
    requires id' < |reqs| && q < reqs[id'].cached && Covered(c, reqs[id'])
    ensures p / c.B < |reqs[id].table| && q / c.B < |reqs[id'].table| && reqs[id].table[p / c.B] < |pool.pages|
    ensures SlotOf(c, reqs[id'], q) == SlotOf(c, reqs[id], p) ==>
              id != id' && pool.pages[reqs[id].table[p / c.B]].Published()
                  && reqs[id'].tokens[..q + 1] == reqs[id].tokens[..p + 1]
  {
    PositionPage(c, reqs[id], p);
    PositionPage(c, reqs[id'], q);
    assert TableOk(c, pool.pages, led, reqs[id]);
    assert TableOk(c, pool.pages, led, reqs[id']);
    assert EntryOk(c, pool.pages, led, reqs[id], p / c.B);
    assert EntryOk(c, pool.pages, led, reqs[id'], q / c.B);
    if id != id' {
      assert Share(c, reqs[id], reqs[id']);
    }
    SlotInjective(c, reqs[id].table[p / c.B], p % c.B, reqs[id'].table[q / c.B], q % c.B);
  }

  // ---------------------------------------------------------------- the query tokens of a batch

  /** One query token: a request and a position in it. */
  datatype Place = Place(id: nat, pos: nat)

  function ReqPlaces(reqs: seq<Req>, id: nat): (ps: seq<Place>)
    requires id < |reqs|
    ensures |ps| == reqs[id].newToks
  {
    seq(reqs[id].newToks, k requires 0 <= k < reqs[id].newToks => Place(id, reqs[id].cached + k))
  }

  /** The batch's query tokens in the order of `input_ids`. */
  function BatchPlaces(reqs: seq<Req>, ids: seq<nat>): seq<Place>
    requires forall k :: 0 <= k < |ids| ==> ids[k] < |reqs|
  {
    if ids == [] then [] else ReqPlaces(reqs, ids[0]) + BatchPlaces(reqs, ids[1..])
  }

  /** `query_start_loc[x]`: query tokens of the requests before the `x`-th. */
  function QueryStart(reqs: seq<Req>, ids: seq<nat>, x: nat): nat
    requires x <= |ids| && forall k :: 0 <= k < |ids| ==> ids[k] < |reqs|
  {
    if x == 0 then 0 else reqs[ids[0]].newToks + QueryStart(reqs, ids[1..], x - 1)
  }

  /** The `x`-th request's tokens stand together, from its query start on, in position order. */
  lemma {:induction false} PlaceAt(reqs: seq<Req>, ids: seq<nat>, x: nat, p: nat)
    requires forall k :: 0 <= k < |ids| ==> ids[k] < |reqs|
    requires x < |ids| && NewPosition(reqs, ids[x], p)
    ensures var n := QueryStart(reqs, ids, x) + (p - reqs[ids[x]].cached);
            n < |BatchPlaces(reqs, ids)| && BatchPlaces(reqs, ids)[n] == Place(ids[x], p)
  {
    if x > 0 {
      PlaceAt(reqs, ids[1..], x - 1, p);
    }
  }

  /** Every query token is a new token of a request of the batch, and stands at only one place. */
  lemma {:induction false} PlaceSource(reqs: seq<Req>, ids: seq<nat>, n: nat) returns (x: nat)
    requires forall k :: 0 <= k < |ids| ==> ids[k] < |reqs|
    requires n < |BatchPlaces(reqs, ids)|
    ensures var pl := BatchPlaces(reqs, ids)[n];
            && x < |ids| && pl.id == ids[x] && NewPosition(reqs, pl.id, pl.pos)
            && n == QueryStart(reqs, ids, x) + (pl.pos - reqs[pl.id].cached)
  {
    var m := reqs[ids[0]].newToks;
    if n < m {
      x := 0;
    } else {
      x := PlaceSource(reqs, ids[1..], n - m);
      x := x + 1;
    }
  }

  lemma PlacesDistinct(reqs: seq<Req>, ids: seq<nat>)
    requires NoDup(ids) && forall k :: 0 <= k < |ids| ==> ids[k] < |reqs|
    ensures NoDup(BatchPlaces(reqs, ids))
  {
    var ps := BatchPlaces(reqs, ids);
    forall i, j | 0 <= i < j < |ps|
      ensures ps[i] != ps[j]
    {
      var x := PlaceSource(reqs, ids, i);
      var y := PlaceSource(reqs, ids, j);
    }
  }

  /** Everybody who has new tokens is in the batch, and every table covers its context. */
  ghost predicate HoldsAllNew(c: Config, reqs: seq<Req>, ids: seq<nat>) {
    && NoDup(ids)
    && (forall k :: 0 <= k < |ids| ==> ids[k] < |reqs|)
    && (forall id: nat :: id < |reqs| ==> Covered(c, reqs[id]) && (reqs[id].newToks > 0 ==> id in ids))
  }

  ghost predicate GoodPlace(c: Config, reqs: seq<Req>, pl: Place) {
    pl.id < |reqs| && Covered(c, reqs[pl.id]) && NewPosition(reqs, pl.id, pl.pos)
  }

  lemma PlacesGood(c: Config, reqs: seq<Req>, ids: seq<nat>)
    requires HoldsAllNew(c, reqs, ids)
    ensures forall n :: 0 <= n < |BatchPlaces(reqs, ids)| ==> GoodPlace(c, reqs, BatchPlaces(reqs, ids)[n])
  {
    forall n: nat | n < |BatchPlaces(reqs, ids)|
      ensures GoodPlace(c, reqs, BatchPlaces(reqs, ids)[n])
    {
      var x := PlaceSource(reqs, ids, n);
    }
  }

  function PlaceSlot(c: Config, reqs: seq<Req>, pl: Place): nat
    requires GoodPlace(c, reqs, pl)
  {
    PositionPage(c, reqs[pl.id], pl.pos);
    SlotOf(c, reqs[pl.id], pl.pos)
  }

  function PlacePrefix(c: Config, reqs: seq<Req>, pl: Place): seq<Token>
    requires GoodPlace(c, reqs, pl)
  {
    reqs[pl.id].tokens[..pl.pos + 1]
  }

  /** One write per query token: its slot, and the prefix that ends in it. */
  ghost function BatchWrites(c: Config, reqs: seq<Req>, ids: seq<nat>): (ws: seq<Write<seq<Token>>>)
    requires HoldsAllNew(c, reqs, ids)
  {
    PlacesGood(c, reqs, ids);
    var ps := BatchPlaces(reqs, ids);
    seq(|ps|, n requires 0 <= n < |ps| => Write(PlaceSlot(c, reqs, ps[n]), PlacePrefix(c, reqs, ps[n])))
  }

  /** The slot mapping of a whole batch never names a slot twice. */
  lemma BatchDistinct(c: Config, pool: Pool, reqs: seq<Req>, led: Ledger, ids: seq<nat>)
    requires World(c, pool, reqs, led) && HoldsAllNew(c, reqs, ids)
    ensures DistinctSlots(BatchWrites(c, reqs, ids))
  {
    hide World;
    PlacesDistinct(reqs, ids);
    PlacesGood(c, reqs, ids);
    var ps := BatchPlaces(reqs, ids);
    forall i, j | 0 <= i < j < |ps|
      ensures BatchWrites(c, reqs, ids)[i].slot != BatchWrites(c, reqs, ids)[j].slot
    {
      assert ps[i] != ps[j];
      NewSlotsDistinct(c, pool, reqs, led, ps[i].id, ps[i].pos, ps[j].id, ps[j].pos);
    }
  }

  lemma NewTokenStored(c: Config, pool: Pool, reqs: seq<Req>, led: Ledger, kv: Memory, ids: seq<nat>, id: nat, i: nat,
                       o: nat)
    requires World(c, pool, reqs, led) && HoldsAllNew(c, reqs, ids) && |kv| == Start(|pool.pages|, c.B)
    requires id < |reqs| && i < |reqs[id].table| && o < c.B
    requires NewPosition(reqs, id, Start(i, c.B) + o)
    ensures Slot(c, reqs[id].table[i], o) < |kv|
    ensures StoreAll(kv, BatchWrites(c, reqs, ids))[Slot(c, reqs[id].table[i], o)]
            == reqs[id].tokens[..Start(i, c.B) + o + 1]
  {
    hide World, DistinctSlots, NoDup;
    var p := Start(i, c.B) + o;
    DivUnique(p, c.B, i);
    DivStart(p, c.B);
    NewSlotRight(c, pool, reqs, led, id, p);
    BatchDistinct(c, pool, reqs, led, ids);
    var n := WriteFor(c, reqs, ids, id, p);
    StoreWritten(kv, BatchWrites(c, reqs, ids), n);
  }

  lemma WriteFor(c: Config, reqs: seq<Req>, ids: seq<nat>, id: nat, p: nat) returns (n: nat)
    requires HoldsAllNew(c, reqs, ids) && NewPosition(reqs, id, p)
    ensures n < |BatchWrites(c, reqs, ids)| && p / c.B < |reqs[id].table|
    ensures BatchWrites(c, reqs, ids)[n] == Write(SlotOf(c, reqs[id], p), reqs[id].tokens[..p + 1])
  {
    PositionPage(c, reqs[id], p);
    var x :| 0 <= x < |ids| && ids[x] == id;
    PlaceAt(reqs, ids, x, p);
    n := QueryStart(reqs, ids, x) + (p - reqs[id].cached);
    PlacesGood(c, reqs, ids);
    assert BatchPlaces(reqs, ids)[n] == Place(id, p);
  }

  /** A write of the batch is pending before it happens. */
  lemma WriteIsPending(c: Config, reqs: seq<Req>, pl: Place, b: nat, o: nat)
    requires GoodPlace(c, reqs, pl) && o < c.B
    ensures PlaceSlot(c, reqs, pl) == Slot(c, b, o) ==> Pending(c, reqs, b, o)
  {
    PositionPage(c, reqs[pl.id], pl.pos);
    SlotInjective(c, reqs[pl.id].table[pl.pos / c.B], pl.pos % c.B, b, o);
    assert PlaceSlot(c, reqs, pl) == Slot(c, b, o) ==> Writes(c, reqs[pl.id], b, o);
  }

  lemma OtherSlotKept(c: Config, reqs: seq<Req>, kv: Memory, ids: seq<nat>, b: nat, o: nat)
    requires HoldsAllNew(c, reqs, ids) && o < c.B && Slot(c, b, o) < |kv|
    requires !Pending(c, reqs, b, o)
    ensures StoreAll(kv, BatchWrites(c, reqs, ids))[Slot(c, b, o)] == kv[Slot(c, b, o)]
  {
    hide Pending;
    var ws := BatchWrites(c, reqs, ids);
    PlacesGood(c, reqs, ids);
    forall k | 0 <= k < |ws|
      ensures ws[k].slot != Slot(c, b, o)
    {
      WriteIsPending(c, reqs, BatchPlaces(reqs, ids)[k], b, o);
    }
    StoreUntouched(kv, ws, Slot(c, b, o));
  }

  /** Storing the batch through its slot mapping is exactly the write the cache invariant waits for. */
  lemma BatchStored(c: Config, pool: Pool, reqs: seq<Req>, led: Ledger, kv: Memory, ids: seq<nat>)
    requires World(c, pool, reqs, led) && HoldsAllNew(c, reqs, ids) && |kv| == Start(|pool.pages|, c.B)
    ensures StepWritten(c, pool, reqs, kv, StoreAll(kv, BatchWrites(c, reqs, ids)))
  {
    hide World, HoldsAllNew, Pending;
    var kv' := StoreAll(kv, BatchWrites(c, reqs, ids));
    forall id: nat, i: nat, o: nat | id < |reqs| && i < |reqs[id].table| && o < c.B
        && Slot(c, reqs[id].table[i], o) < |kv|
        && reqs[id].cached <= Start(i, c.B) + o < reqs[id].Context() <= |reqs[id].tokens|
      ensures kv'[Slot(c, reqs[id].table[i], o)] == reqs[id].tokens[..Start(i, c.B) + o + 1]
    {
      NewTokenStored(c, pool, reqs, led, kv, ids, id, i, o);
    }
    forall b: nat, o: nat | b < |pool.pages| && o < c.B && Slot(c, b, o) < |kv| && !Pending(c, reqs, b, o)
      ensures kv'[Slot(c, b, o)] == kv[Slot(c, b, o)]
    {
      OtherSlotKept(c, reqs, kv, ids, b, o);
    }
  }
}
