/** The order of the free pages: they are taken from the front, claimed from wherever they stand, and given back at the
    end, a request's last page first. */
module FreeDeque {
  import opened Arith
  import opened Seqs
  import opened Requests
  import opened Pages
  import opened CacheInvariant
  import opened KvMemory
  import opened Boundary
  import opened Prefill
  import opened Steps

  /** At first every page is free, in the order of their numbers, and nothing is named. */
  lemma AllFree(c: Config)
    ensures var pool := InitPool(c);
            && |pool.free| == |pool.pages| == c.numBlocks && pool.used == {} && pool.owner == map[]
            && forall b: nat :: b < c.numBlocks ==>
                 pool.free[b] == b && pool.pages[b].refs == 0 && !pool.pages[b].Published()
  {
  }

  // ---------------------------------------------------------------- taking

  lemma TakeFrontFree(pool: Pool)
    requires TakeFront(pool).Ok?
    ensures pool.free != [] && TakeFront(pool).value.0.free == pool.free[1..] && TakeFront(pool).value.1 == pool.free[0]
  {
  }

  /** One round: the page at hand, or the first free one. */
  lemma GrowStepTakes(c: Config, pool: Pool, r: Req, end: nat)
    requires r.Context() < end && GrowStep(c, pool, r, end).Ok?
    ensures var (pool', r') := GrowStep(c, pool, r, end).value;
            && r.Context() < r'.Context()
            && ((r'.table == r.table && pool'.free == pool.free)
                || (pool.free != [] && r'.table == r.table + [pool.free[0]] && pool'.free == pool.free[1..]))
  {
    hide BlockHash, LineageOf, CanonicalLineage, TakeFront;
    DivStart(r.Context(), c.B);
    if r.Context() / c.B >= |r.table| {
      TakeFrontFree(pool);
    }
  }

  /** The pages that a request grows by are the first free ones, in their order. */
  lemma {:induction false} GrowTakesFront(c: Config, pool: Pool, r: Req, end: nat)
    requires Grow(c, pool, r, end).Ok?
    ensures var (pool', r') := Grow(c, pool, r, end).value;
            var k := |r'.table| - |r.table|;
            0 <= k <= |pool.free| && r'.table == r.table + pool.free[..k] && pool'.free == pool.free[k..]
    decreases end - r.Context()
  {
    hide GrowStep;
    if r.Context() < end {
      var step := GrowStep(c, pool, r, end).value;
      GrowStepTakes(c, pool, r, end);
      GrowTakesFront(c, step.0, step.1, end);
      if step.1.table != r.table {
        var k := |Grow(c, step.0, step.1, end).value.1.table| - |step.1.table|;
        TakenOrder(r.table, pool.free, k);
      }
    }
  }

  lemma TakenOrder(table: seq<nat>, free: seq<nat>, k: nat)
    requires free != [] && k < |free|
    ensures table + [free[0]] + free[1..][..k] == table + free[..k + 1] && free[1..][k..] == free[k + 1..]
  {
    assert [free[0]] + free[1..][..k] == free[..k + 1];
  }

  /** Taking the first free page forgets the hashes that name it, and no others. */
  lemma TakeForgets(pool: Pool)
    requires TakeFront(pool).Ok? && forall h :: h in pool.owner ==> OwnerOk(pool, h)
    ensures var (pool', b) := TakeFront(pool).value;
            && (forall h :: h in pool'.owner <==> h in pool.owner && pool.owner[h] != b)
            && (forall h :: h in pool'.owner ==> pool'.owner[h] == pool.owner[h])
  {
    var b := pool.free[0];
    forall h | h in pool.owner && pool.owner[h] == b
      ensures pool.pages[b].hash == h
    {
      assert OwnerOk(pool, h);
    }
  }

  // ---------------------------------------------------------------- claiming

  lemma ClaimRemoves(pool: Pool, b: nat)
    requires b < |pool.pages|
    ensures ClaimPage(pool, b).free == Remove(pool.free, b)
  {
    if b !in pool.free { RemoveNothing(pool.free, b); }
  }

  lemma {:induction false} RemoveNothing(s: seq<nat>, x: nat)
    requires x !in s
    ensures Remove(s, x) == s
  {
    if s != [] { RemoveNothing(s[1..], x); }
  }

  lemma {:induction false} ClaimsRemove(c: Config, pool: Pool, r: Req, ids: seq<nat>)
    requires AllBelow(ids, |pool.pages|)
    ensures ClaimPages(c, pool, r, ids).0.free == RemoveAll(pool.free, ids)
    decreases |ids|
  {
    if ids != [] {
      ClaimRemoves(pool, ids[0]);
      ClaimsRemove(c, ClaimPage(pool, ids[0]), r.(table := r.table + [ids[0]], cached := r.cached + c.B), ids[1..]);
    }
  }

  /** Claiming a prefix takes its pages out and leaves the other free pages in their order. */
  lemma ClaimKeepsOrder(c: Config, pool: Pool, r: Req, ids: seq<nat>)
    requires NoDup(pool.free) && ClaimPrefix(c, pool, r, ids).Ok?
    ensures ClaimPrefix(c, pool, r, ids).value.0.free == Without(pool.free, ids)
  {
    hide PlanError, ClaimedPrefixValid;
    ClaimsRemove(c, pool, r, ids);
    RemoveAllKeepsOrder(pool.free, ids);
  }

  // ---------------------------------------------------------------- giving back

  /** The pages of the table that nobody but `id` holds, the last one first. */
  ghost function SoleOwned(reqs: seq<Req>, id: nat, table: seq<nat>): seq<nat> {
    if table == [] then []
    else
      var b := table[|table| - 1];
      (if Users(reqs, b) == {id} then [b] else []) + SoleOwned(reqs, id, table[..|table| - 1])
  }

  lemma ReleasedPage(pool: Pool, b: nat)
    requires b < |pool.pages|
    ensures var pool' := ReleasePage(pool, b);
            && pool'.free == pool.free + (if pool.pages[b].refs == 1 then [b] else [])
            && |pool'.pages| == |pool.pages|
            && forall x: nat :: x < |pool.pages| && x != b ==> pool'.pages[x] == pool.pages[x]
  {
  }

  lemma Joined(a: seq<nat>, b: seq<nat>, d: seq<nat>)
    ensures a + b + d == a + (b + d)
  {
  }

  lemma {:induction false} ReleasedOrder(pool: Pool, reqs: seq<Req>, id: nat, table: seq<nat>)
    requires AllBelow(table, |pool.pages|) && NoDup(table)
    requires forall k :: 0 <= k < |table| ==> (pool.pages[table[k]].refs == 1 <==> Users(reqs, table[k]) == {id})
    ensures ReleasePages(pool, table).free == pool.free + SoleOwned(reqs, id, table)
    decreases |table|
  {
    hide Users, ReleasePage;
    if table != [] {
      var n := |table| - 1;
      var b, front := table[n], table[..n];
      var pool1 := ReleasePage(pool, b);
      ReleasedPage(pool, b);
      forall k | 0 <= k < |front|
        ensures pool1.pages[front[k]].refs == 1 <==> Users(reqs, front[k]) == {id}
      {
        assert front[k] == table[k] && table[k] != b;
      }
      ReleasedOrder(pool1, reqs, id, front);
      var x := if Users(reqs, b) == {id} then [b] else [];
      assert pool.pages[table[n]].refs == 1 <==> Users(reqs, table[n]) == {id};
      Joined(pool.free, x, SoleOwned(reqs, id, front));
    }
  }

  /** `deallocate` puts the pages that lose their last owner behind the free ones, the end of the table first. */
  lemma DeallocateOrder(c: Config, pool: Pool, reqs: seq<Req>, led: Ledger, kv: Memory, id: nat)
    requires Quiescent(c, pool, reqs, led, kv) && id < |reqs|
    ensures Deallocate(pool, reqs[id]).Ok?
    ensures Deallocate(pool, reqs[id]).value.0.free == pool.free + SoleOwned(reqs, id, reqs[id].table)
  {
    hide KvComplete, SharesOk, KeysOk, PagesOk;
    DeallocateOk(c, pool, reqs, led, kv, id);
    var r := reqs[id];
    assert TableOk(c, pool.pages, led, reqs[id]);
    forall k | 0 <= k < |r.table|
      ensures pool.pages[r.table[k]].refs == 1 <==> Users(reqs, r.table[k]) == {id}
    {
      assert RefOk(pool, reqs, r.table[k]);
      assert id in Users(reqs, r.table[k]);
      OneUser(Users(reqs, r.table[k]), id);
    }
    ReleasedOrder(pool, reqs, id, r.table);
  }

  lemma OneUser(s: set<nat>, id: nat)
    requires id in s
    ensures |s| == 1 <==> s == {id}
  {
    if |s| == 1 {
      SubsetCard({id}, s);
      assert |s - {id}| == 0;
    }
  }
}
