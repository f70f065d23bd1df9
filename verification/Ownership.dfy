/** Which pages the hash map names for a request's own blocks, and so how far the request's next lookup can go. */
module Ownership {
  import opened Arith
  import opened Requests
  import opened Pages
  import opened CacheInvariant
  import opened KvMemory
  import opened Growth
  import opened Matching
  import opened Scheduling

  /** The hash of block `i`, or -1 beyond the last full block. */
  function BlockName(c: Config, tokens: seq<Token>, i: nat): int {
    if Start(i + 1, c.B) <= |tokens| then BlockHash(c, tokens, i) else -1
  }

  /** None of the first `m` blocks after block `i` has its hash. */
  predicate LastIn(c: Config, tokens: seq<Token>, m: nat, i: nat) {
    forall j: nat {:trigger BlockName(c, tokens, j)} :: i < j < m ==> BlockName(c, tokens, j) != BlockName(c, tokens, i)
  }

  function RepeatFrom(c: Config, tokens: seq<Token>, n: nat, i: nat): nat
    decreases n - i
  {
    if i >= n then n else if LastIn(c, tokens, n, i) then RepeatFrom(c, tokens, n, i + 1) else i
  }

  /** The first of the first `n` blocks whose hash comes again among them; `n` if there is none. */
  function FirstRepeat(c: Config, tokens: seq<Token>, n: nat): nat {
    RepeatFrom(c, tokens, n, 0)
  }

  lemma {:induction false} RepeatFromIs(c: Config, tokens: seq<Token>, n: nat, i: nat)
    requires i <= n
    ensures var k := RepeatFrom(c, tokens, n, i);
            && i <= k <= n && (k < n ==> !LastIn(c, tokens, n, k))
            && forall j: nat :: i <= j < k ==> LastIn(c, tokens, n, j)
    decreases n - i
  {
    if i < n && LastIn(c, tokens, n, i) {
      RepeatFromIs(c, tokens, n, i + 1);
    }
  }

  /** Only the hashes of the first `n` blocks matter. */
  lemma {:induction false} RepeatFrame(c: Config, t: seq<Token>, u: seq<Token>, n: nat, i: nat)
    requires forall j: nat :: j < n ==> BlockName(c, t, j) == BlockName(c, u, j)
    ensures RepeatFrom(c, t, n, i) == RepeatFrom(c, u, n, i)
    decreases n - i
  {
    if i < n {
      assert LastIn(c, t, n, i) <==> LastIn(c, u, n, i) by {
        forall j: nat | i < j < n
          ensures BlockName(c, t, j) == BlockName(c, u, j)
        {
        }
      }
      RepeatFrame(c, t, u, n, i + 1);
    }
  }

  /** The blocks of a prefix are those of the whole. */
  lemma PrefixNames(c: Config, t: seq<Token>, u: seq<Token>, i: nat)
    requires t <= u && Start(i + 1, c.B) <= |t|
    ensures BlockName(c, t, i) == BlockName(c, u, i)
  {
    assert t[..Start(i + 1, c.B)] == u[..Start(i + 1, c.B)];
  }

  /** The hash map names entry `i` of the table for block `i`. */
  ghost predicate Owns(c: Config, pool: Pool, r: Req, i: nat)
    requires i < |r.table|
  {
    var h := BlockName(c, r.tokens, i);
    h in pool.owner && pool.owner[h] == r.table[i]
  }

  /** Of the first `m` blocks with the same hash, the last one has the hash. */
  ghost predicate OwnsLast(c: Config, pool: Pool, r: Req, m: nat) {
    && m <= |r.table| && Start(m, c.B) <= |r.tokens|
    && forall i: nat {:trigger LastIn(c, r.tokens, m, i)} :: i < m && LastIn(c, r.tokens, m, i) ==> Owns(c, pool, r, i)
  }

  ghost predicate InUse(pool: Pool, r: Req) {
    forall i: nat {:trigger r.table[i]} :: i < |r.table|
        ==> r.table[i] < |pool.pages| && pool.pages[r.table[i]].refs > 0
  }

  // ---------------------------------------------------------------- filling pages

  /** Taking a free page takes no hash from a page in use. */
  lemma TakeOwns(c: Config, pool: Pool, r: Req, m: nat)
    requires TakeFront(pool).Ok? && InUse(pool, r) && OwnsLast(c, pool, r, m)
    ensures var (pool', b) := TakeFront(pool).value;
            var r' := r.(table := r.table + [b]);
            InUse(pool', r') && OwnsLast(c, pool', r', m) && b < |pool'.pages|
  {
    var (pool', b) := TakeFront(pool).value;
    var r' := r.(table := r.table + [b]);
    forall i: nat | i < m && LastIn(c, r'.tokens, m, i)
      ensures Owns(c, pool', r', i)
    {
      assert Owns(c, pool, r, i);
      assert r.table[i] < |pool.pages| && pool.pages[r.table[i]].refs > 0;
    }
    forall i: nat | i < |r'.table|
      ensures r'.table[i] < |pool'.pages| && pool'.pages[r'.table[i]].refs > 0
    {
      if i < |r.table| {
        assert r.table[i] < |pool.pages| && pool.pages[r.table[i]].refs > 0;
      }
    }
  }

  /** Publishing the next page gives it the hash of its block. */
  lemma PublishOwns(c: Config, pool: Pool, r: Req, m: nat, parent: Lineage)
    requires OwnsLast(c, pool, r, m) && InUse(pool, r) && m < |r.table| && Start(m + 1, c.B) <= |r.tokens|
    requires r.table[m] < |pool.pages|
    ensures var pool' := Publish(pool, r.table[m], BlockHash(c, r.tokens, m), r.Block(m, c.B), parent);
            InUse(pool', r) && OwnsLast(c, pool', r, m + 1)
  {
    hide CanonicalLineage, BlockHash;
    var pool' := Publish(pool, r.table[m], BlockHash(c, r.tokens, m), r.Block(m, c.B), parent);
    forall i: nat | i < m + 1 && LastIn(c, r.tokens, m + 1, i)
      ensures Owns(c, pool', r, i)
    {
      if i < m {
        assert LastIn(c, r.tokens, m, i);
        assert Owns(c, pool, r, i);
        assert BlockName(c, r.tokens, m) != BlockName(c, r.tokens, i);
      }
    }
    forall i: nat | i < |r.table|
      ensures r.table[i] < |pool'.pages| && pool'.pages[r.table[i]].refs > 0
    {
      assert r.table[i] < |pool.pages| && pool.pages[r.table[i]].refs > 0;
    }
  }

  /** Progress plays no part in who owns what. */
  lemma OwnsFrame(c: Config, pool: Pool, r: Req, r': Req, m: nat)
    requires OwnsLast(c, pool, r, m) && r'.table == r.table && r'.tokens == r.tokens
    ensures OwnsLast(c, pool, r', m)
  {
    forall i: nat | i < m && LastIn(c, r'.tokens, m, i)
      ensures Owns(c, pool, r', i)
    {
      assert Owns(c, pool, r, i);
    }
  }

  /** Full pages of a request so far. */
  function Full(c: Config, r: Req): nat {
    r.Context() / c.B
  }

  lemma GrowStepOwns(c: Config, pool: Pool, r: Req, end: nat)
    requires r.Context() < end <= |r.tokens| && InUse(pool, r) && OwnsLast(c, pool, r, Full(c, r))
    ensures var res := GrowStep(c, pool, r, end);
            res.Ok? ==>
              var (pool', r') := res.value;
              && r.Context() < r'.Context() <= end && r'.tokens == r.tokens && InUse(pool', r')
              && OwnsLast(c, pool', r', Full(c, r'))
  {
    hide Publish, BlockHash, LineageOf, TakeFront, OwnsLast, InUse;
    var res := GrowStep(c, pool, r, end);
    if res.Ok? {
      DivStart(r.Context(), c.B);
      var i := r.Context() / c.B;
      var next := Start(i + 1, c.B);
      var parent := LineageOf(pool.pages, Before(r.table, i)).value;
      var taken := if i < |r.table| then r.table else r.table + [TakeFront(pool).value.1];
      var pool1 := if i < |r.table| then pool else TakeFront(pool).value.0;
      var r1 := r.(table := taken);
      if i >= |r.table| {
        TakeOwns(c, pool, r, i);
      }
      var r' := res.value.1;
      OwnsFrame(c, pool1, r1, r', i);
      InUseFrame(pool1, r1, r');
      if next <= end {
        PublishOwns(c, pool1, r', i, parent);
        DivUnique(next, c.B, i + 1);
      } else {
        DivUnique(end, c.B, i);
      }
    }
  }

  lemma InUseFrame(pool: Pool, r: Req, r': Req)
    requires InUse(pool, r) && r'.table == r.table
    ensures InUse(pool, r')
  {
  }

  /** A whole loop: of the request's blocks with the same hash, the last published one has it. */
  lemma {:induction false} GrowOwns(c: Config, pool: Pool, r: Req, end: nat)
    requires r.Context() <= end <= |r.tokens| && InUse(pool, r) && OwnsLast(c, pool, r, Full(c, r))
    ensures var res := Grow(c, pool, r, end);
            res.Ok? ==> res.value.1.Context() == end && OwnsLast(c, res.value.0, res.value.1, Full(c, res.value.1))
    decreases end - r.Context()
  {
    hide GrowStep, OwnsLast, InUse;
    if r.Context() < end {
      var step := GrowStep(c, pool, r, end);
      if step.Ok? {
        GrowStepOwns(c, pool, r, end);
        GrowOwns(c, step.value.0, step.value.1, end);
      }
    }
  }

  // ---------------------------------------------------------------- the operations of the scheduler

  lemma WorldInUse(c: Config, pool: Pool, reqs: seq<Req>, led: Ledger, id: nat)
    requires World(c, pool, reqs, led) && id < |reqs|
    ensures InUse(pool, reqs[id])
  {
    assert TableOk(c, pool.pages, led, reqs[id]);
    forall i: nat | i < |reqs[id].table|
      ensures reqs[id].table[i] < |pool.pages| && pool.pages[reqs[id].table[i]].refs > 0
    {
      assert RefOk(pool, reqs, reqs[id].table[i]);
      assert id in Users(reqs, reqs[id].table[i]);
    }
  }

  /** The pages of a plan own the hashes under which they were found. */
  lemma PlanOwns(c: Config, pool: Pool, led: Ledger, r: Req, ids: seq<nat>, r': Req)
    requires PlanOk(c, pool, led, r, ids) && r.table == [] && r'.table == ids && r'.tokens == r.tokens
    ensures OwnsLast(c, pool, r', |ids|)
  {
    forall i: nat | i < |ids|
      ensures Owns(c, pool, r', i)
    {
      assert PlanEntry(c, pool, led, r, ids, i);
    }
    if ids != [] {
      assert PlanEntry(c, pool, led, r, ids, |ids| - 1);
    }
  }

  lemma OwnerFrame(c: Config, pool: Pool, pool': Pool, r: Req, m: nat)
    requires OwnsLast(c, pool, r, m) && pool'.owner == pool.owner
    ensures OwnsLast(c, pool', r, m)
  {
    forall i: nat | i < m && LastIn(c, r.tokens, m, i)
      ensures Owns(c, pool', r, i)
    {
      assert Owns(c, pool, r, i);
    }
  }

  /** After an admission the request owns the hashes of its full pages, as far as they do not repeat. */
  lemma AdmitOwns(c: Config, s: Sys, led: Ledger, kv: Memory, id: nat, ids: seq<nat>, n: nat)
    requires Consistent(c, s.pool, s.reqs, led, kv) && id < |s.reqs|
    requires s.reqs[id].table == [] && s.reqs[id].cached == 0 && s.reqs[id].newToks == 0
    requires PlanOk(c, s.pool, led, s.reqs[id], ids) && Start(|ids|, c.B) + n <= |s.reqs[id].tokens|
    requires Admit(c, s, id, ids, n).Ok?
    ensures var s1 := Admit(c, s, id, ids, n).value;
            |s1.reqs| == |s.reqs| && OwnsLast(c, s1.pool, s1.reqs[id], Full(c, s1.reqs[id]))
  {
    hide Consistent, PlanOk, Grow, ClaimPrefix, OwnsLast, InUse, World;
    var r := s.reqs[id];
    ClaimPrefixOk(c, s.pool, s.reqs, led, kv, id, ids);
    var v := ClaimPrefix(c, s.pool, r, ids).value;
    assert r.table + ids == ids;
    PlanOwns(c, s.pool, led, r, ids, v.1);
    OwnerFrame(c, s.pool, v.0, v.1, |ids|);
    WorldOf(c, v.0, s.reqs[id := v.1], led, kv);
    WorldInUse(c, v.0, s.reqs[id := v.1], led, id);
    var r0 := v.1.(newToks := n).(newToks := 0);
    assert r0 == v.1;
    StartMono(|ids|, |ids| + 1, c.B);
    DivUnique(Start(|ids|, c.B), c.B, |ids|);
    GrowOwns(c, v.0, r0, r0.cached + n);
    var w := AllocateNew(c, v.0, v.1.(newToks := n)).value;
    OwnsFrame(c, w.0, w.1, w.1.(status := Running), Full(c, w.1));
  }

  lemma WorldOf(c: Config, pool: Pool, reqs: seq<Req>, led: Ledger, kv: Memory)
    requires Consistent(c, pool, reqs, led, kv)
    ensures World(c, pool, reqs, led)
  {
  }

  /** Appending keeps that. */
  lemma AppendOwns(c: Config, s: Sys, led: Ledger, id: nat, n: nat)
    requires World(c, s.pool, s.reqs, led) && id < |s.reqs| && s.reqs[id].newToks == 0 && n > 0
    requires s.reqs[id].cached + n <= |s.reqs[id].tokens| && OwnsLast(c, s.pool, s.reqs[id], Full(c, s.reqs[id]))
    requires ScheduleAppend(c, s, id, n).Ok?
    ensures var s1 := ScheduleAppend(c, s, id, n).value;
            && |s1.reqs| == |s.reqs| && s1.reqs[id].Context() == s.reqs[id].cached + n
            && OwnsLast(c, s1.pool, s1.reqs[id], Full(c, s1.reqs[id]))
  {
    hide World, Grow, OwnsLast, InUse;
    WorldInUse(c, s.pool, s.reqs, led, id);
    var r := s.reqs[id];
    assert r.(newToks := n).(newToks := 0) == r;
    GrowOwns(c, s.pool, r, r.cached + n);
  }

  // ---------------------------------------------------------------- a pool full of one request

  /** A chain of cached pages whose hashes are found is a plan. */
  lemma ChainToPlan(c: Config, pool: Pool, reqs: seq<Req>, led: Ledger, id: nat, t: seq<nat>, m: nat)
    requires World(c, pool, reqs, led) && id < |reqs| && reqs[id].table == [] && m <= |t|
    requires ChainOk(c, pool.pages, led, reqs[id], t) && Start(|t|, c.B) < |reqs[id].tokens|
    requires forall k: nat :: k < m ==>
               BlockName(c, reqs[id].tokens, k) in pool.owner && pool.owner[BlockName(c, reqs[id].tokens, k)] == t[k]
    ensures PlanOk(c, pool, led, reqs[id], t[..m])
  {
    var r := reqs[id];
    forall k: nat | k < m
      ensures PlanEntry(c, pool, led, r, t[..m], k)
    {
      ChainToEntry(c, pool, reqs, led, id, t, m, k);
    }
  }

  lemma ChainToEntry(c: Config, pool: Pool, reqs: seq<Req>, led: Ledger, id: nat, t: seq<nat>, m: nat, k: nat)
    requires World(c, pool, reqs, led) && id < |reqs| && reqs[id].table == [] && k < m <= |t|
    requires ChainOk(c, pool.pages, led, reqs[id], t) && Start(|t|, c.B) < |reqs[id].tokens|
    requires BlockName(c, reqs[id].tokens, k) in pool.owner && pool.owner[BlockName(c, reqs[id].tokens, k)] == t[k]
    ensures PlanEntry(c, pool, led, reqs[id], t[..m], k)
  {
    hide BlockHash, SharesOk, TablesOk, Extends, LineageOf, CanonicalLineage;
    var r := reqs[id];
    assert t[..m][..k] == t[..k];
    assert ChainEntry(c, pool.pages, led, r, t, k);
    if k > 0 {
      assert ChainEntry(c, pool.pages, led, r, t, k - 1);
      PublishedLineage(c, pool, led, t[k - 1]);
    }
    var prev := Previous(r.table, t[..k]);
    StartMono(k + 1, |t|, c.B);
    CeilBounds(|r.tokens|, c.B);
    StartStrict(|t|, Ceil(|r.tokens|, c.B), c.B);
    ChainExtends(c, pool, reqs, led, id, t, k);
  }

  lemma ChainExtends(c: Config, pool: Pool, reqs: seq<Req>, led: Ledger, id: nat, t: seq<nat>, k: nat)
    requires World(c, pool, reqs, led) && id < |reqs| && reqs[id].table == [] && k < |t|
    requires ChainOk(c, pool.pages, led, reqs[id], t)
    ensures Start(k + 1, c.B) <= |reqs[id].tokens|
    ensures LineageOf(pool.pages, Previous([], t[..k])).Ok?
    ensures Extends(c, pool, reqs[id], k, LineageOf(pool.pages, Previous([], t[..k])).value, t[k])
  {
    hide CanonicalLineage, SharesOk, TablesOk;
    var r := reqs[id];
    var b := t[k];
    assert ChainEntry(c, pool.pages, led, r, t, k);
    assert PageOk(c, led, pool.pages[b]) && RefOk(pool, reqs, b);
    NotInLedger(pool, led, ROOT);
    if k > 0 {
      assert ChainEntry(c, pool.pages, led, r, t, k - 1);
      PublishedLineage(c, pool, led, t[k - 1]);
      assert t[..k][k - 1] == t[k - 1];
    }
    BlockIsSlice(c, r, k);
  }
}
