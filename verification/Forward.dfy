/** A transformer forward pass over the paged cache, against the same network run on each request alone. */
module Forward {
  import opened Arith
  import opened Requests
  import opened Pages
  import opened CacheInvariant
  import opened KvMemory
  import opened Boundary
  import opened Store
  import opened Addressing

  type Vec = seq<real>

  /** A key and a value. */
  type KV = (Vec, Vec)

  const NO_KV: KV := ([], [])

  /** Any decoder network: per layer, keys and values from a hidden state, and attention over those of a prefix. */
  datatype Net = Net(
    layers: nat,
    embed: (Token, nat) -> Vec,
    keyval: (nat, Vec) -> KV,
    attend: (nat, Vec, seq<KV>) -> Vec,
    head: Vec -> Token)

  // ---------------------------------------------------------------- the reference

  /** Hidden state of the last token of `prefix` on entry to layer `l`, with a private cache. */
  function Hidden(net: Net, l: nat, prefix: seq<Token>): Vec
    requires prefix != []
    decreases l, 0
  {
    if l == 0 then net.embed(prefix[|prefix| - 1], |prefix| - 1)
    else net.attend(l - 1, Hidden(net, l - 1, prefix),
                    seq(|prefix|, q requires 0 <= q < |prefix| => KeyVal(net, l - 1, prefix[..q + 1])))
  }

  /** Keys and values of the last token of `prefix` in layer `l`. */
  function KeyVal(net: Net, l: nat, prefix: seq<Token>): KV
    requires prefix != []
    decreases l, 1
  {
    net.keyval(l, Hidden(net, l, prefix))
  }

  /** The next token after `prefix`. */
  function NextToken(net: Net, prefix: seq<Token>): Token
    requires prefix != []
  {
    net.head(Hidden(net, net.layers, prefix))
  }

  // ---------------------------------------------------------------- the batched pass over shared memory

  /** `k_cache`/`v_cache`: one slot-indexed memory per layer. */
  type Layers = seq<seq<KV>>

  ghost predicate AllGood(c: Config, reqs: seq<Req>, ps: seq<Place>) {
    forall n :: 0 <= n < |ps| ==> GoodPlace(c, reqs, ps[n])
  }

  ghost function LayerWrites(net: Net, c: Config, reqs: seq<Req>, ps: seq<Place>, h: seq<Vec>, l: nat): seq<Write<KV>>
    requires AllGood(c, reqs, ps) && |h| == |ps|
  {
    seq(|ps|, n requires 0 <= n < |ps| => Write(PlaceSlot(c, reqs, ps[n]), net.keyval(l, h[n])))
  }

  /** What a query token reads: the slots of all positions up to its own, through its block table. */
  ghost function Reads(c: Config, reqs: seq<Req>, pl: Place, mem: seq<KV>): seq<KV>
    requires GoodPlace(c, reqs, pl)
  {
    seq(pl.pos + 1, q requires 0 <= q < pl.pos + 1 =>
      PositionPage(c, reqs[pl.id], q);
      var slot := SlotOf(c, reqs[pl.id], q);
      if slot < |mem| then mem[slot] else NO_KV)
  }

  ghost function LayerOut(net: Net, c: Config, reqs: seq<Req>, ps: seq<Place>, h: seq<Vec>, mem: seq<KV>,
                          l: nat): seq<Vec>
    requires AllGood(c, reqs, ps) && |h| == |ps|
  {
    seq(|ps|, n requires 0 <= n < |ps| => net.attend(l, h[n], Reads(c, reqs, ps[n], mem)))
  }

  /** Per layer: store the keys and values of all query tokens, then let each attend over its own context. */
  ghost function RunLayers(net: Net, c: Config, reqs: seq<Req>, ps: seq<Place>, mems: Layers, h: seq<Vec>,
                           l: nat): (Layers, seq<Vec>)
    requires AllGood(c, reqs, ps) && |h| == |ps| && l <= net.layers == |mems|
    decreases net.layers - l
  {
    if l == net.layers then (mems, h)
    else
      var mem := StoreAll(mems[l], LayerWrites(net, c, reqs, ps, h, l));
      RunLayers(net, c, reqs, ps, mems[l := mem], LayerOut(net, c, reqs, ps, h, mem, l), l + 1)
  }

  ghost function Embedded(net: Net, c: Config, reqs: seq<Req>, ps: seq<Place>): (h: seq<Vec>)
    requires AllGood(c, reqs, ps)
    ensures |h| == |ps|
  {
    seq(|ps|, n requires 0 <= n < |ps| => net.embed(reqs[ps[n].id].tokens[ps[n].pos], ps[n].pos))
  }

  // ---------------------------------------------------------------- refinement

  /** Layer `l`'s memory holds what the labels say. */
  ghost predicate LayerHolds(net: Net, l: nat, mem: seq<KV>, kv: Memory) {
    && |mem| == |kv|
    && forall x: nat {:trigger mem[x]} {:trigger kv[x]} :: x < |kv| && kv[x] != [] ==> mem[x] == KeyVal(net, l, kv[x])
  }

  ghost predicate Holds(net: Net, mems: Layers, kv: Memory) {
    && |mems| == net.layers
    && forall l: nat {:trigger mems[l]} :: l < net.layers ==> LayerHolds(net, l, mems[l], kv)
  }

  ghost predicate HiddenRight(net: Net, c: Config, reqs: seq<Req>, ps: seq<Place>, h: seq<Vec>, l: nat)
    requires AllGood(c, reqs, ps)
  {
    && |h| == |ps|
    && forall n :: 0 <= n < |ps| ==> h[n] == Hidden(net, l, PlacePrefix(c, reqs, ps[n]))
  }

  /** After the store, layer `l` holds what the labels say after the store. */
  lemma LayerStored(net: Net, c: Config, reqs: seq<Req>, ids: seq<nat>, mem: seq<KV>, kv: Memory, h: seq<Vec>, l: nat)
    requires HoldsAllNew(c, reqs, ids) && AllGood(c, reqs, BatchPlaces(reqs, ids))
    requires LayerHolds(net, l, mem, kv) && HiddenRight(net, c, reqs, BatchPlaces(reqs, ids), h, l)
    requires DistinctSlots(BatchWrites(c, reqs, ids))
    ensures LayerHolds(net, l, StoreAll(mem, LayerWrites(net, c, reqs, BatchPlaces(reqs, ids), h, l)),
                       StoreAll(kv, BatchWrites(c, reqs, ids)))
  {
    var ps := BatchPlaces(reqs, ids);
    var ws := BatchWrites(c, reqs, ids);
    var us := LayerWrites(net, c, reqs, ps, h, l);
    assert |us| == |ws| && forall n :: 0 <= n < |ws| ==> us[n].slot == ws[n].slot;
    forall x: nat | x < |kv| && StoreAll(kv, ws)[x] != []
      ensures StoreAll(mem, us)[x] == KeyVal(net, l, StoreAll(kv, ws)[x])
    {
      if Untouched(ws, x) {
        StoreUntouched(kv, ws, x);
        StoreUntouched(mem, us, x);
      } else {
        var n :| 0 <= n < |ws| && ws[n].slot == x;
        StoreWritten(kv, ws, n);
        assert DistinctSlots(us);
        StoreWritten(mem, us, n);
      }
    }
  }

  /** Each query token reads exactly its own prefix's keys and values. */
  lemma ReadsRight(net: Net, c: Config, pool: Pool, reqs: seq<Req>, led: Ledger, kv: Memory, pl: Place, mem: seq<KV>,
                   l: nat)
    requires Quiescent(c, pool, reqs, led, kv) && GoodPlace(c, reqs, pl) && LayerHolds(net, l, mem, kv)
    ensures var prefix := PlacePrefix(c, reqs, pl);
            Reads(c, reqs, pl, mem) == seq(|prefix|, q requires 0 <= q < |prefix| => KeyVal(net, l, prefix[..q + 1]))
  {
    hide Quiescent;
    var prefix := PlacePrefix(c, reqs, pl);
    forall q: nat | q < |prefix|
      ensures Reads(c, reqs, pl, mem)[q] == KeyVal(net, l, prefix[..q + 1])
    {
      ContextInMemory(c, pool, reqs, led, kv, pl.id, q);
      assert prefix[..q + 1] == reqs[pl.id].tokens[..q + 1];
    }
  }

  /** Shared memory changes nothing: all layers of the batch compute what each request would compute alone. */
  lemma {:induction false} RunLayersRight(net: Net, c: Config, pool: Pool, reqs: seq<Req>, led: Ledger, ids: seq<nat>,
                                          mems: Layers,
                                          kv: Memory, kv': Memory, h: seq<Vec>, l: nat)
    requires HoldsAllNew(c, reqs, ids) && AllGood(c, reqs, BatchPlaces(reqs, ids))
             && DistinctSlots(BatchWrites(c, reqs, ids))
    requires kv' == StoreAll(kv, BatchWrites(c, reqs, ids)) && Quiescent(c, pool, reqs, led, kv')
    requires l <= net.layers == |mems| && HiddenRight(net, c, reqs, BatchPlaces(reqs, ids), h, l)
    requires forall m: nat :: m < l ==> LayerHolds(net, m, mems[m], kv')
    requires forall m: nat :: l <= m < net.layers ==> LayerHolds(net, m, mems[m], kv)
    ensures var (mems', h') := RunLayers(net, c, reqs, BatchPlaces(reqs, ids), mems, h, l);
            Holds(net, mems', kv') && HiddenRight(net, c, reqs, BatchPlaces(reqs, ids), h', net.layers)
    decreases net.layers - l
  {
    hide Quiescent, DistinctSlots, LayerHolds, BatchPlaces, StoreAll, LayerWrites;
    if l < net.layers {
      var ps := BatchPlaces(reqs, ids);
      var mem := StoreAll(mems[l], LayerWrites(net, c, reqs, ps, h, l));
      LayerStored(net, c, reqs, ids, mems[l], kv, h, l);
      var h' := LayerOut(net, c, reqs, ps, h, mem, l);
      forall n: nat | n < |ps|
        ensures h'[n] == Hidden(net, l + 1, PlacePrefix(c, reqs, ps[n]))
      {
        ReadsRight(net, c, pool, reqs, led, kv', ps[n], mem, l);
      }
      RunLayersRight(net, c, pool, reqs, led, ids, mems[l := mem], kv, kv', h', l + 1);
    }
  }
}
