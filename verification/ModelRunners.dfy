/** The model runner as an object: caches updated in place, layer by layer, through the prepared arrays. */
module ModelRunners {
  import opened Arith
  import opened Requests
  import opened Sequences
  import opened Store
  import opened KvStore
  import opened ModelInput
  import opened Plans
  import opened Forward
  import opened Kernel

  function Zip(ks: seq<Vec>, vs: seq<Vec>): (kv: seq<KV>)
    requires |ks| == |vs|
    ensures |kv| == |ks|
  {
    seq(|ks|, x requires 0 <= x < |ks| => (ks[x], vs[x]))
  }

  function Keys(net: Net, h: seq<Vec>, l: nat): (r: seq<Vec>)
    ensures |r| == |h|
  {
    seq(|h|, n requires 0 <= n < |h| => net.keyval(l, h[n]).0)
  }

  function Values(net: Net, h: seq<Vec>, l: nat): (r: seq<Vec>)
    ensures |r| == |h|
  {
    seq(|h|, n requires 0 <= n < |h| => net.keyval(l, h[n]).1)
  }

  /** Storing keys and values side by side is storing pairs. */
  lemma {:induction false} ZipStores(ks: seq<Vec>, vs: seq<Vec>, kws: seq<Write<Vec>>, vws: seq<Write<Vec>>,
                                     ws: seq<Write<KV>>)
    requires |ks| == |vs| && |kws| == |vws| == |ws|
    requires forall i :: 0 <= i < |ws| ==>
               kws[i] == Write(ws[i].slot, ws[i].value.0) && vws[i] == Write(ws[i].slot, ws[i].value.1)
    ensures Zip(StoreAll(ks, kws), StoreAll(vs, vws)) == StoreAll(Zip(ks, vs), ws)
    decreases |ws|
  {
    if ws != [] {
      var slot := ws[0].slot;
      var ks' := if 0 <= slot < |ks| then ks[slot := kws[0].value] else ks;
      var vs' := if 0 <= slot < |vs| then vs[slot := vws[0].value] else vs;
      ZipStores(ks', vs', kws[1..], vws[1..], ws[1..]);
      assert Zip(ks', vs') == if 0 <= slot < |ks| then Zip(ks, vs)[slot := ws[0].value] else Zip(ks, vs);
    }
  }

  /** Every query token has a slot of its own, or none. */
  ghost predicate Addressable(input: Input, size: nat) {
    && |input.inputIds| == |input.common.slotMapping|
    && SlotsIn(input.common.slotMapping, size)
    && OwnSlots(input.common.slotMapping)
  }

  ghost predicate OwnSlots(slots: seq<int>) {
    forall i, j :: 0 <= i < j < |slots| && slots[i] >= 0 && slots[j] >= 0 ==> slots[i] != slots[j]
  }

  /** One program per token, in the order of the tokens; any other would do. */
  function Launch(n: nat): (order: seq<nat>)
    ensures |order| == n
    ensures forall i: nat :: i < n ==> order[i] == i
  {
    seq(n, i requires 0 <= i < n => i)
  }

  lemma LaunchesAll(n: nat)
    ensures Launches(Launch(n), n)
  {
    forall i: nat | i < n
      ensures i in Launch(n)
    {
      assert Launch(n)[i] == i;
    }
  }

  /** `run`, as a function of the memory: tokens for the rows that need logits. */
  function RunSpec(net: Net, c: Config, rs: seq<Req>, n: int, mems: Layers): Result<(Layers, seq<Token>, seq<nat>)> {
    var input :- Prepared(c, rs, Present(n));
    if |mems| != net.layers || input.needLogits.Absent? then Err(AssertionFailed)
    else
      var out :- RunKernel(net, c, input, c.unified, mems);
      Ok((out.0, out.1, input.needLogits.value))
  }

  class ModelRunner {
    const config: Config
    const net: Net
    const kCaches: seq<array<Vec>>
    const vCaches: seq<array<Vec>>

    ghost predicate Valid() {
      && |kCaches| == |vCaches| == net.layers
      && (forall l: nat :: l < net.layers ==>
           kCaches[l].Length == vCaches[l].Length == Start(config.numBlocks, config.B))
      && (forall l: nat, m: nat :: l < net.layers && m < net.layers ==>
            && kCaches[l] != vCaches[m]
            && (l != m ==> kCaches[l] != kCaches[m] && vCaches[l] != vCaches[m]))
    }

    ghost function View(): (mems: Layers)
      requires Valid()
      reads kCaches, vCaches
      ensures |mems| == net.layers
      ensures forall l: nat :: l < net.layers ==> mems[l] == Zip(kCaches[l][..], vCaches[l][..])
    {
      seq(net.layers, l requires 0 <= l < net.layers reads kCaches, vCaches => Zip(kCaches[l][..], vCaches[l][..]))
    }

    constructor (config: Config, net: Net)
      ensures Valid() && this.config == config && this.net == net
      ensures fresh(kCaches) && fresh(vCaches)
    {
      var size := Start(config.numBlocks, config.B);
      var ks: seq<array<Vec>>, vs: seq<array<Vec>> := [], [];
      while |ks| < net.layers
        invariant |ks| == |vs| <= net.layers && fresh(ks) && fresh(vs)
        invariant forall l: nat :: l < |ks| ==> ks[l].Length == vs[l].Length == size
        invariant forall l: nat, m: nat ::
                    l < |ks| && m < |ks| ==> ks[l] != vs[m] && (l != m ==> ks[l] != ks[m] && vs[l] != vs[m])
        decreases net.layers - |ks|
      {
        var k := new Vec[size](_ => []);
        var v := new Vec[size](_ => []);
        ks, vs := ks + [k], vs + [v];
      }
      this.config, this.net, kCaches, vCaches := config, net, ks, vs;
    }

    /** One layer: store the keys and values of all query tokens, then attend. */
    method RunLayer(slots: seq<int>, plan: Plan, h: seq<Vec>, l: nat) returns (h': seq<Vec>)
      requires Valid() && l < net.layers && |slots| == |h|
      requires SlotsIn(slots, Start(config.numBlocks, config.B)) && OwnSlots(slots)
      modifies kCaches, vCaches
      ensures var mem := StoreAll(old(View())[l], KernelWrites(net, slots, h, l));
              View() == old(View())[l := mem] && h' == KernelOut(net, config, plan, h, mem, l)
    {
      var keys, values := Keys(net, h, l), Values(net, h, l);
      ZipStores(kCaches[l][..], vCaches[l][..], Writes(slots, keys), Writes(slots, values),
                KernelWrites(net, slots, h, l));
      LaunchesAll(|slots|);
      StoreKvCache(keys, values, kCaches[l], vCaches[l], slots, Launch(|slots|));
      h' := KernelOut(net, config, plan, h, Zip(kCaches[l][..], vCaches[l][..]), l);
    }

    /** `run` */
    method Run(qs: seq<Sequence>, numPrefill: nat) returns (r: Result<(seq<Token>, seq<nat>)>)
      requires Valid() && (forall k :: 0 <= k < |qs| ==> qs[k].Valid())
      requires Prepared(config, ViewsOf(qs), Present(numPrefill)).Ok? ==>
                 Addressable(Prepared(config, ViewsOf(qs), Present(numPrefill)).value,
                             Start(config.numBlocks, config.B))
      modifies kCaches, vCaches
      ensures var spec := RunSpec(net, config, ViewsOf(qs), numPrefill, old(View()));
              if spec.Ok? then r == Ok((spec.value.1, spec.value.2)) && View() == spec.value.0 else r == Err(spec.error)
    {
      hide Prepared, BuildPlan, KernelHead, KernelEmbed, KernelOut, KernelWrites;
      var input :- PrepareModelInput(config, qs, Present(numPrefill));
      if input.needLogits.Absent? {
        return Err(AssertionFailed);
      }
      var plan :- BuildPlan(config, input.common, config.unified);
      var slots := input.common.slotMapping;
      var h := KernelEmbed(net, input);
      EmbedSize(net, input);
      ghost var spec := KernelLayers(net, config, slots, plan, View(), h, 0);
      var l := 0;
      while l < net.layers
        invariant 0 <= l <= net.layers && |h| == |slots|
        invariant KernelLayers(net, config, slots, plan, View(), h, l) == spec
      {
        h := RunLayer(slots, plan, h, l);
        l := l + 1;
      }
      return Ok((KernelHead(net, input, h), input.needLogits.value));
    }
  }

  lemma EmbedSize(net: Net, input: Input)
    ensures |KernelEmbed(net, input)| == |input.inputIds|
  {
  }
}
