/** Between steps: releasing tables, and the moment a step's writes have reached memory. */
module Boundary {
  import opened Arith
  import opened Requests
  import opened Pages
  import opened CacheInvariant
  import opened KvMemory
  import opened Growth

  ghost predicate PageInMemory(c: Config, pool: Pool, led: Ledger, kv: Memory, b: nat)
    requires b < |pool.pages|
  {
    pool.pages[b].Published() ==>
      forall o: nat {:trigger Slot(c, b, o)} :: o < c.B && Slot(c, b, o) < |kv|
          ==> SlotRight(c, led, kv, pool.pages[b], b, o)
  }

  /** Every published page and every request's context is in memory, with nothing left to write. */
  ghost predicate KvComplete(c: Config, pool: Pool, reqs: seq<Req>, led: Ledger, kv: Memory) {
    && |kv| == Start(|pool.pages|, c.B)
    && (forall b: nat {:trigger PageInMemory(c, pool, led, kv, b)} ::
         b < |pool.pages| ==> PageInMemory(c, pool, led, kv, b))
    && (forall id: nat {:trigger TableReady(c, pool.pages, kv, reqs[id], reqs[id].Context())} :: id < |reqs| ==>
          TableReady(c, pool.pages, kv, reqs[id], reqs[id].Context()))
  }

  /** The invariant of the shared cache while no write is outstanding. */
  ghost predicate Quiescent(c: Config, pool: Pool, reqs: seq<Req>, led: Ledger, kv: Memory) {
    && World(c, pool, reqs, led)
    && KvComplete(c, pool, reqs, led, kv)
    && AllAligned(c, pool, reqs)
  }

  lemma TableReadyLess(c: Config, pages: seq<Page>, kv: Memory, r: Req, m: nat, n: nat)
    requires TableReady(c, pages, kv, r, n) && m <= n
    ensures TableReady(c, pages, kv, r, m)
  {
    forall i: nat | i < |r.table|
      ensures EntryReady(c, pages, kv, r, m, i)
    {
      assert EntryReady(c, pages, kv, r, n, i);
    }
  }

  lemma QuiescentIsConsistent(c: Config, pool: Pool, reqs: seq<Req>, led: Ledger, kv: Memory)
    requires Quiescent(c, pool, reqs, led, kv)
    ensures Consistent(c, pool, reqs, led, kv)
  {
    forall b: nat | b < |pool.pages|
      ensures PageReady(c, pool, reqs, led, kv, b)
    {
      assert PageInMemory(c, pool, led, kv, b);
    }
    forall id: nat | id < |reqs|
      ensures TableReady(c, pool.pages, kv, reqs[id], reqs[id].cached)
    {
      TableReadyLess(c, pool.pages, kv, reqs[id], reqs[id].cached, reqs[id].Context());
    }
  }

  // ---------------------------------------------------------------- deallocation

  lemma {:induction false} ReleasePagesWorld(c: Config, pool: Pool, reqs: seq<Req>, led: Ledger, id: nat)
    requires World(c, pool, reqs, led) && id < |reqs|
    ensures AllBelow(reqs[id].table, |pool.pages|) && CanRelease(pool, reqs[id].table)
    ensures var pool' := ReleasePages(pool, reqs[id].table);
            && World(c, pool', reqs[id := reqs[id].(table := [])], led)
            && SameIdentities(pool.pages, pool'.pages) && pool'.owner == pool.owner
            && pool.free <= pool'.free
    decreases |reqs[id].table|
  {
    var r := reqs[id];
    assert TableOk(c, pool.pages, led, reqs[id]);
    if r.table == [] {
      assert reqs[id := r.(table := [])] == reqs;
    } else {
      var b := r.table[|r.table| - 1];
      assert RefOk(pool, reqs, b);
      ReleaseRefs(c, pool, reqs, led, id);
      ReleasePool(c, pool, reqs, led, b);
      ReleaseWorld(c, pool, reqs, led, id);
      var pool1 := ReleasePage(pool, b);
      var reqs1 := reqs[id := Released(r)];
      ReleasePagesWorld(c, pool1, reqs1, led, id);
      assert reqs1[id := reqs1[id].(table := [])] == reqs[id := r.(table := [])];
      var pool' := ReleasePages(pool1, Released(r).table);
      forall x: nat | x < |pool.pages|
        ensures pool'.pages[x].(refs := 0) == pool.pages[x].(refs := 0)
      {
        assert pool1.pages[x].(refs := 0) == pool.pages[x].(refs := 0);
      }
    }
  }

  function Cleared(r: Req): Req {
    r.(cached := 0, newToks := 0, table := [])
  }

  lemma ClearedTable(c: Config, pages: seq<Page>, led: Ledger, kv: Memory, r: Req)
    ensures TableOk(c, pages, led, Cleared(r))
    ensures TableReady(c, pages, kv, Cleared(r), 0)
    ensures Aligned(c, pages, Cleared(r))
  {
    CeilBounds(0, c.B);
  }

  /** Changes that touch only reference counts disturb neither alignment nor memory. */
  lemma RefsOnlyQuiescent(c: Config, pool: Pool, pool': Pool, reqs: seq<Req>, led: Ledger, kv: Memory, x: nat)
    requires SameIdentities(pool.pages, pool'.pages) && x < |reqs|
    requires Aligned(c, pool.pages, reqs[x]) && TableReady(c, pool.pages, kv, reqs[x], reqs[x].Context())
    ensures Aligned(c, pool'.pages, reqs[x]) && TableReady(c, pool'.pages, kv, reqs[x], reqs[x].Context())
  {
    forall i: nat | i < |reqs[x].table|
      ensures pool'.pages[reqs[x].table[i]].hash == pool.pages[reqs[x].table[i]].hash
    {
      assert pool'.pages[reqs[x].table[i]].(refs := 0) == pool.pages[reqs[x].table[i]].(refs := 0);
    }
    AlignedFrame(c, pool.pages, pool'.pages, reqs[x]);
    RefsOnlyReady(c, pool, pool', kv, reqs[x], reqs[x].Context());
  }

  /** `deallocate` succeeds and keeps every published page reachable, with its content, in the free list. */
  lemma DeallocateOk(c: Config, pool: Pool, reqs: seq<Req>, led: Ledger, kv: Memory, id: nat)
    requires Quiescent(c, pool, reqs, led, kv) && id < |reqs|
    ensures Deallocate(pool, reqs[id]).Ok?
    ensures var (pool', r') := Deallocate(pool, reqs[id]).value;
            && r' == Cleared(reqs[id])
            && Quiescent(c, pool', reqs[id := r'], led, kv)
            && SameIdentities(pool.pages, pool'.pages) && pool'.owner == pool.owner
            && pool.free <= pool'.free
  {
    ReleasePagesWorld(c, pool, reqs, led, id);
    var pool' := ReleasePages(pool, reqs[id].table);
    var r' := Cleared(reqs[id]);
    var reqs1 := reqs[id := reqs[id].(table := [])];
    var reqs' := reqs[id := r'];
    assert reqs1[id := r'] == reqs';
    ClearedTable(c, pool'.pages, led, kv, reqs[id]);
    ProgressWorld(c, pool', reqs1, led, id, r');
    forall b: nat | b < |pool'.pages|
      ensures PageInMemory(c, pool', led, kv, b)
    {
      assert PageInMemory(c, pool, led, kv, b);
      assert pool'.pages[b].(refs := 0) == pool.pages[b].(refs := 0);
    }
    forall x: nat | x < |reqs'|
      ensures TableReady(c, pool'.pages, kv, reqs'[x], reqs'[x].Context())
    {
      if x != id {
        assert Aligned(c, pool.pages, reqs[x]);
        assert TableReady(c, pool.pages, kv, reqs[x], reqs[x].Context());
        RefsOnlyQuiescent(c, pool, pool', reqs, led, kv, x);
      }
    }
    forall x: nat | x < |reqs'|
      ensures Aligned(c, pool'.pages, reqs'[x])
    {
      if x != id {
        assert Aligned(c, pool.pages, reqs[x]);
        assert TableReady(c, pool.pages, kv, reqs[x], reqs[x].Context());
        RefsOnlyQuiescent(c, pool, pool', reqs, led, kv, x);
      }
    }
  }

  // ---------------------------------------------------------------- the writes of a step

  /** What the step's writes do to memory: a pending slot gets its own prefix, every other slot stays. */
  ghost predicate StepWritten(c: Config, pool: Pool, reqs: seq<Req>, kv: Memory, kv': Memory) {
    && |kv'| == |kv| == Start(|pool.pages|, c.B)
    && (forall id: nat, i: nat, o: nat {:trigger Slot(c, reqs[id].table[i], o)} ::
          id < |reqs| && i < |reqs[id].table| && o < c.B && Slot(c, reqs[id].table[i], o) < |kv|
          && reqs[id].cached <= Start(i, c.B) + o < reqs[id].Context() <= |reqs[id].tokens| ==>
            kv'[Slot(c, reqs[id].table[i], o)] == reqs[id].tokens[..Start(i, c.B) + o + 1])
    && (forall b: nat, o: nat {:trigger Slot(c, b, o)} ::
          b < |pool.pages| && o < c.B && Slot(c, b, o) < |kv| && !Pending(c, reqs, b, o) ==>
            kv'[Slot(c, b, o)] == kv[Slot(c, b, o)])
  }

  /** A page that is being written and is published already stands for what is written to it. */
  lemma WriterAgrees(c: Config, pool: Pool, reqs: seq<Req>, led: Ledger, kv: Memory, kv': Memory, b: nat, o: nat)
    requires World(c, pool, reqs, led) && StepWritten(c, pool, reqs, kv, kv')
    requires b < |pool.pages| && pool.pages[b].Published() && o < c.B && Slot(c, b, o) < |kv|
    requires Pending(c, reqs, b, o)
    ensures SlotRight(c, led, kv', pool.pages[b], b, o)
  {
    var id: nat :| id < |reqs| && Writes(c, reqs[id], b, o);
    var i: nat :| i < |reqs[id].table| && reqs[id].table[i] == b
        && reqs[id].cached <= Start(i, c.B) + o < reqs[id].Context();
    assert TableOk(c, pool.pages, led, reqs[id]);
    assert EntryOk(c, pool.pages, led, reqs[id], i);
    assert kv'[Slot(c, reqs[id].table[i], o)] == reqs[id].tokens[..Start(i, c.B) + o + 1];
  }

  lemma WrittenPage(c: Config, pool: Pool, reqs: seq<Req>, led: Ledger, kv: Memory, kv': Memory, b: nat)
    requires World(c, pool, reqs, led) && StepWritten(c, pool, reqs, kv, kv')
    requires b < |pool.pages| && PageReady(c, pool, reqs, led, kv, b)
    ensures PageInMemory(c, pool, led, kv', b)
  {
    if pool.pages[b].Published() {
      forall o: nat | o < c.B && Slot(c, b, o) < |kv'|
        ensures SlotRight(c, led, kv', pool.pages[b], b, o)
      {
        if Pending(c, reqs, b, o) {
          WriterAgrees(c, pool, reqs, led, kv, kv', b, o);
        }
      }
    }
  }

  /** Nobody else writes into a partial page, so its cached part survives and the rest is written. */
  lemma WrittenEntry(c: Config, pool: Pool, reqs: seq<Req>, led: Ledger, kv: Memory, kv': Memory, id: nat, i: nat)
    requires World(c, pool, reqs, led) && StepWritten(c, pool, reqs, kv, kv')
    requires id < |reqs| && i < |reqs[id].table| && TableReady(c, pool.pages, kv, reqs[id], reqs[id].cached)
    requires TableOk(c, pool.pages, led, reqs[id])
    ensures EntryReady(c, pool.pages, kv', reqs[id], reqs[id].Context(), i)
  {
    var r := reqs[id];
    var b := r.table[i];
    assert EntryReady(c, pool.pages, kv, r, r.cached, i);
    if !pool.pages[b].Published() {
      forall o: nat | o < c.B && Start(i, c.B) + o < r.Context() && Slot(c, b, o) < |kv'|
        ensures kv'[Slot(c, b, o)] == r.tokens[..Start(i, c.B) + o + 1]
      {
        if Start(i, c.B) + o < r.cached {
          assert !Pending(c, reqs, b, o) by { PartialUnwritten(c, pool, reqs, led, id, i, o); }
        } else {
          assert kv'[Slot(c, reqs[id].table[i], o)] == r.tokens[..Start(i, c.B) + o + 1];
        }
      }
    }
  }

  lemma PartialUnwritten(c: Config, pool: Pool, reqs: seq<Req>, led: Ledger, id: nat, i: nat, o: nat)
    requires World(c, pool, reqs, led) && id < |reqs| && TableOk(c, pool.pages, led, reqs[id]) && i < |reqs[id].table|
    requires !pool.pages[reqs[id].table[i]].Published()
    requires o < c.B && Start(i, c.B) + o < reqs[id].cached
    ensures !Pending(c, reqs, reqs[id].table[i], o)
  {
    var b := reqs[id].table[i];
    forall x: nat | x < |reqs|
      ensures !Writes(c, reqs[x], b, o)
    {
      assert TableOk(c, pool.pages, led, reqs[x]);
      assert EntryOk(c, pool.pages, led, reqs[id], i);
      if x != id {
        assert Share(c, reqs[id], reqs[x]);
        forall j: nat | j < |reqs[x].table|
          ensures reqs[x].table[j] != b
        {
          assert EntryOk(c, pool.pages, led, reqs[x], j);
        }
      }
    }
  }

  /** Once the step's writes have happened, everything in every context is in memory. */
  lemma WritesComplete(c: Config, pool: Pool, reqs: seq<Req>, led: Ledger, kv: Memory, kv': Memory)
    requires Consistent(c, pool, reqs, led, kv) && StepWritten(c, pool, reqs, kv, kv')
    ensures Quiescent(c, pool, reqs, led, kv')
  {
    forall b: nat | b < |pool.pages|
      ensures PageInMemory(c, pool, led, kv', b)
    {
      assert PageReady(c, pool, reqs, led, kv, b);
      WrittenPage(c, pool, reqs, led, kv, kv', b);
    }
    forall id: nat | id < |reqs|
      ensures TableReady(c, pool.pages, kv', reqs[id], reqs[id].Context())
    {
      assert TableOk(c, pool.pages, led, reqs[id]);
      assert TableReady(c, pool.pages, kv, reqs[id], reqs[id].cached);
      forall i: nat | i < |reqs[id].table|
        ensures EntryReady(c, pool.pages, kv', reqs[id], reqs[id].Context(), i)
      {
        WrittenEntry(c, pool, reqs, led, kv, kv', id, i);
      }
    }
  }

  /** The point of the whole design: every position of a request's context reads back its own prefix. */
  lemma ContextInMemory(c: Config, pool: Pool, reqs: seq<Req>, led: Ledger, kv: Memory, id: nat, p: nat)
    requires Quiescent(c, pool, reqs, led, kv) && id < |reqs| && p < reqs[id].Context()
    ensures p / c.B < |reqs[id].table| && reqs[id].table[p / c.B] < |pool.pages|
    ensures reqs[id].Context() <= |reqs[id].tokens|
    ensures Slot(c, reqs[id].table[p / c.B], p % c.B) < |kv|
    ensures kv[Slot(c, reqs[id].table[p / c.B], p % c.B)] == reqs[id].tokens[..p + 1]
  {
    var r := reqs[id];
    var i := p / c.B;
    assert TableOk(c, pool.pages, led, reqs[id]);
    assert Aligned(c, pool.pages, reqs[id]);
    DivStart(p, c.B);
    CeilBounds(r.Context(), c.B);
    StartStrict(i, |r.table|, c.B);
    var b := r.table[i];
    SlotBelow(c, b, p % c.B, |pool.pages|);
    assert EntryOk(c, pool.pages, led, r, i);
    assert TableReady(c, pool.pages, kv, reqs[id], reqs[id].Context());
    assert EntryReady(c, pool.pages, kv, r, r.Context(), i);
    assert PageInMemory(c, pool, led, kv, b);
    assert PageOk(c, led, pool.pages[b]);
  }
}
