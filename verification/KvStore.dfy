/** The store into the paged cache, in place: one program per token, in whatever order they run. */
module KvStore {
  import opened Seqs
  import opened Requests
  import opened Store

  function Writes<T>(slots: seq<int>, values: seq<T>): (ws: seq<Write<T>>)
    requires |slots| == |values|
    ensures |ws| == |slots|
  {
    seq(|slots|, i requires 0 <= i < |slots| => Write(slots[i], values[i]))
  }

  /** Every slot is a place in the cache, or -1 for a token that is not stored. */
  predicate SlotsIn(slots: seq<int>, size: nat) {
    forall i :: 0 <= i < |slots| ==> -1 <= slots[i] < size
  }

  /** `store_kvcache_kernel`: what program `idx` does. */
  method StoreProgram<T>(key: seq<T>, value: seq<T>, kCache: array<T>, vCache: array<T>, slots: seq<int>, idx: nat)
    requires |key| == |value| == |slots| && idx < |slots| && SlotsIn(slots, kCache.Length)
             && vCache.Length == kCache.Length && kCache != vCache
    modifies kCache, vCache
    ensures kCache[..] == StoreAll(old(kCache[..]), [Writes(slots, key)[idx]])
    ensures vCache[..] == StoreAll(old(vCache[..]), [Writes(slots, value)[idx]])
  {
    StoreOne(kCache[..], Writes(slots, key)[idx]);
    StoreOne(vCache[..], Writes(slots, value)[idx]);
    var slot := slots[idx];
    if slot == -1 {
      return;
    }
    kCache[slot] := key[idx];
    vCache[slot] := value[idx];
  }

  lemma StoreOne<T>(mem: seq<T>, w: Write<T>)
    ensures StoreAll(mem, [w]) == if 0 <= w.slot < |mem| then mem[w.slot := w.value] else mem
  {
    assert [w][1..] == [];
  }

  lemma {:induction false} StoreSnoc<T>(mem: seq<T>, ws: seq<Write<T>>, w: Write<T>)
    ensures StoreAll(mem, ws + [w]) == StoreAll(StoreAll(mem, ws), [w])
    decreases |ws|
  {
    if ws == [] {
      assert [] + [w] == [w];
    } else {
      StoreSnoc(if 0 <= ws[0].slot < |mem| then mem[ws[0].slot := ws[0].value] else mem, ws[1..], w);
      assert (ws + [w])[1..] == ws[1..] + [w];
    }
  }

  function Reordered<T>(ws: seq<T>, order: seq<nat>): (r: seq<T>)
    requires forall k :: 0 <= k < |order| ==> order[k] < |ws|
    ensures |r| == |order|
  {
    seq(|order|, k requires 0 <= k < |order| => ws[order[k]])
  }

  /** Each program runs exactly once. */
  predicate Launches(order: seq<nat>, n: nat) {
    && NoDup(order)
    && (forall k :: 0 <= k < |order| ==> order[k] < n)
    && (forall i: nat :: i < n ==> i in order)
  }

  lemma ReorderedDistinct<T>(ws: seq<Write<T>>, order: seq<nat>)
    requires DistinctSlots(ws) && Launches(order, |ws|)
    ensures DistinctSlots(Reordered(ws, order))
    ensures forall w :: w in Reordered(ws, order) <==> w in ws
  {
    var rs := Reordered(ws, order);
    forall i, j | 0 <= i < j < |rs| && rs[i].slot >= 0 && rs[j].slot >= 0
      ensures rs[i].slot != rs[j].slot
    {
      assert order[i] != order[j];
      if order[i] < order[j] { assert ws[order[i]].slot != ws[order[j]].slot; }
          else { assert ws[order[j]].slot != ws[order[i]].slot; }
    }
    forall w | w in ws
      ensures w in rs
    {
      var i: nat :| i < |ws| && ws[i] == w;
      assert i in order;
      var k :| 0 <= k < |order| && order[k] == i;
      assert rs[k] == w;
    }
  }

  /** `store_kvcache`: the programs run in any order and leave the cache that storing token by token leaves. */
  method StoreKvCache<T>(key: seq<T>, value: seq<T>, kCache: array<T>, vCache: array<T>, slots: seq<int>,
                         order: seq<nat>)
    requires |key| == |value| == |slots| && SlotsIn(slots, kCache.Length) && vCache.Length == kCache.Length
             && kCache != vCache
    requires Launches(order, |slots|) && DistinctSlots(Writes(slots, key))
    modifies kCache, vCache
    ensures kCache[..] == StoreAll(old(kCache[..]), Writes(slots, key))
    ensures vCache[..] == StoreAll(old(vCache[..]), Writes(slots, value))
  {
    ghost var ks, vs := Reordered(Writes(slots, key), order), Reordered(Writes(slots, value), order);
    var k := 0;
    while k < |order|
      invariant 0 <= k <= |order|
      invariant kCache[..] == StoreAll(old(kCache[..]), ks[..k])
      invariant vCache[..] == StoreAll(old(vCache[..]), vs[..k])
    {
      StoreSnoc(old(kCache[..]), ks[..k], ks[k]);
      StoreSnoc(old(vCache[..]), vs[..k], vs[k]);
      assert ks[..k + 1] == ks[..k] + [ks[k]] && vs[..k + 1] == vs[..k] + [vs[k]];
      StoreProgram(key, value, kCache, vCache, slots, order[k]);
      k := k + 1;
    }
    assert ks[..k] == ks && vs[..k] == vs;
    assert DistinctSlots(Writes(slots, value)) by { SameSlots(slots, key, value); }
    ReorderedDistinct(Writes(slots, key), order);
    ReorderedDistinct(Writes(slots, value), order);
    StoreAnyOrder(old(kCache[..]), ks, Writes(slots, key));
    StoreAnyOrder(old(vCache[..]), vs, Writes(slots, value));
  }

  lemma SameSlots<T>(slots: seq<int>, key: seq<T>, value: seq<T>)
    requires |key| == |value| == |slots| && DistinctSlots(Writes(slots, key))
    ensures DistinctSlots(Writes(slots, value))
  {
    forall i, j | 0 <= i < j < |slots| && slots[i] >= 0 && slots[j] >= 0
      ensures slots[i] != slots[j]
    {
      assert Writes(slots, key)[i].slot != Writes(slots, key)[j].slot;
    }
  }

  // ---------------------------------------------------------------- the reference implementation

  /** The entries with a slot: `x[valid]`. */
  function Masked<T>(slots: seq<int>, xs: seq<T>): seq<T>
    requires |slots| == |xs|
  {
    if slots == [] then [] else (if slots[0] >= 0 then [xs[0]] else []) + Masked(slots[1..], xs[1..])
  }

  lemma {:induction false} MaskedStores<T>(mem: seq<T>, slots: seq<int>, values: seq<T>)
    requires |slots| == |values|
    ensures |Masked(slots, slots)| == |Masked(slots, values)|
    ensures StoreAll(mem, Writes(Masked(slots, slots), Masked(slots, values))) == StoreAll(mem, Writes(slots, values))
    decreases |slots|
  {
    if slots != [] {
      var ws := Writes(slots, values);
      assert ws[1..] == Writes(slots[1..], values[1..]);
      var mem' := if 0 <= slots[0] < |mem| then mem[slots[0] := values[0]] else mem;
      MaskedStores(mem', slots[1..], values[1..]);
      var ms := Writes(Masked(slots, slots), Masked(slots, values));
      var rest := Writes(Masked(slots[1..], slots[1..]), Masked(slots[1..], values[1..]));
      if slots[0] >= 0 {
        assert ms[0] == ws[0] && ms[1..] == rest;
      } else {
        assert ms == rest;
      }
    }
  }

  /** `forward_native`: mask, then copy by index; the same cache as the kernel's. */
  method ForwardNative<T>(key: seq<T>, value: seq<T>, kCache: array<T>, vCache: array<T>, slots: seq<int>)
      returns (r: Result<()>)
    requires |key| == |value| && SlotsIn(slots, kCache.Length) && vCache.Length == kCache.Length && kCache != vCache
    modifies kCache, vCache
    ensures r == if |slots| != |key| then Err(InvalidInput) else Ok(())
    ensures r.Err? ==> kCache[..] == old(kCache[..]) && vCache[..] == old(vCache[..])
    ensures r.Ok? ==> kCache[..] == StoreAll(old(kCache[..]), Writes(slots, key))
                      && vCache[..] == StoreAll(old(vCache[..]), Writes(slots, value))
  {
    if |slots| != |key| {
      return Err(InvalidInput);
    }
    MaskedStores(kCache[..], slots, key);
    MaskedStores(vCache[..], slots, value);
    MaskedIn(slots, kCache.Length);
    var valid, ks, vs := Masked(slots, slots), Masked(slots, key), Masked(slots, value);
    IndexCopy(kCache, valid, ks);
    IndexCopy(vCache, valid, vs);
    return Ok(());
  }

  lemma {:induction false} MaskedIn(slots: seq<int>, size: nat)
    requires SlotsIn(slots, size)
    ensures forall i :: 0 <= i < |Masked(slots, slots)| ==> 0 <= Masked(slots, slots)[i] < size
  {
    if slots != [] {
      assert slots[0] in slots;
      MaskedIn(slots[1..], size);
    }
  }

  /** `index_copy_` */
  method IndexCopy<T>(cache: array<T>, slots: seq<int>, values: seq<T>)
    requires |slots| == |values| && forall i :: 0 <= i < |slots| ==> 0 <= slots[i] < cache.Length
    modifies cache
    ensures cache[..] == StoreAll(old(cache[..]), Writes(slots, values))
  {
    ghost var ws := Writes(slots, values);
    var k := 0;
    while k < |slots|
      invariant 0 <= k <= |slots| && cache[..] == StoreAll(old(cache[..]), ws[..k])
    {
      StoreSnoc(old(cache[..]), ws[..k], ws[k]);
      StoreOne(cache[..], ws[k]);
      assert ws[..k + 1] == ws[..k] + [ws[k]];
      cache[slots[k]] := values[k];
      k := k + 1;
    }
    assert ws[..k] == ws;
  }
}
