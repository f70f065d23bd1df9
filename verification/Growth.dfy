/** Growing a table by new tokens: `allocate_new` and `may_append` keep the shared cache consistent. */
module Growth {
  import opened Arith
  import opened Seqs
  import opened Requests
  import opened Pages
  import opened CacheInvariant
  import opened KvMemory

  /** The table covers exactly the request's context, and exactly its full pages are published. */
  ghost predicate Aligned(c: Config, pages: seq<Page>, r: Req) {
    && AllBelow(r.table, |pages|)
    && |r.table| == Ceil(r.Context(), c.B)
    && forall i: nat {:trigger pages[r.table[i]]} :: i < |r.table| ==>
         (pages[r.table[i]].Published() <==> Start(i + 1, c.B) <= r.Context())
  }

  ghost predicate AllAligned(c: Config, pool: Pool, reqs: seq<Req>) {
    forall id: nat {:trigger Aligned(c, pool.pages, reqs[id])} :: id < |reqs| ==> Aligned(c, pool.pages, reqs[id])
  }

  /** The invariant that every operation of the block manager keeps. */
  ghost predicate Consistent(c: Config, pool: Pool, reqs: seq<Req>, led: Ledger, kv: Memory) {
    && World(c, pool, reqs, led)
    && KvPending(c, pool, reqs, led, kv)
    && AllAligned(c, pool, reqs)
  }

  /** A table aligned to context `n` ends in the page of `n`, unless `n` is a page boundary. */
  lemma CeilOfContext(n: nat, B: pos)
    ensures Start(n / B, B) <= n < Start(n / B + 1, B)
    ensures Ceil(n, B) == if n == Start(n / B, B) then n / B else n / B + 1
  {
    DivStart(n, B);
    if n == Start(n / B, B) {
      if n / B > 0 { StartMono(n / B - 1, n / B, B); }
      CeilUnique(n, B, n / B);
    } else {
      CeilUnique(n, B, n / B + 1);
    }
  }

  lemma AlignedEntry(c: Config, pages: seq<Page>, r: Req, i: nat)
    requires Aligned(c, pages, r) && i < |r.table|
    ensures r.table[i] < |pages|
    ensures pages[r.table[i]].Published() <==> Start(i + 1, c.B) <= r.Context()
  {
  }

  /** The alignment of a table is not disturbed by changes to pages it does not hold. */
  lemma AlignedFrame(c: Config, pages: seq<Page>, pages': seq<Page>, r: Req)
    requires Aligned(c, pages, r) && |pages'| == |pages|
    requires forall i: nat :: i < |r.table| ==> (pages'[r.table[i]].hash == pages[r.table[i]].hash)
    ensures Aligned(c, pages', r)
  {
    forall i: nat | i < |r.table|
      ensures pages'[r.table[i]].Published() <==> Start(i + 1, c.B) <= r.Context()
    {
      AlignedEntry(c, pages, r, i);
    }
  }

  /** First half of a round: make sure entry `i` exists. */
  lemma GrowTake(c: Config, pool: Pool, reqs: seq<Req>, led: Ledger, kv: Memory, id: nat)
    returns (pool': Pool, b: nat)
    requires Consistent(c, pool, reqs, led, kv) && id < |reqs|
    requires |reqs[id].table| == reqs[id].Context() / c.B && pool.free != []
    ensures TakeFront(pool) == Ok((pool', b))
    ensures b < |pool'.pages| && |pool'.pages| == |pool.pages| && !pool'.pages[b].Published()
    ensures pool'.pages == pool.pages[b := pool'.pages[b]] && (forall x: nat :: x < |reqs| ==> b !in reqs[x].table)
    ensures |pool'.free| == |pool.free| - 1
    ensures World(c, pool', reqs[id := reqs[id].(table := reqs[id].table + [b])], led)
    ensures KvPending(c, pool', reqs[id := reqs[id].(table := reqs[id].table + [b])], led, kv)
  {
    CeilOfContext(reqs[id].Context(), c.B);
    assert Aligned(c, pool.pages, reqs[id]);
    TakeWorld(c, pool, reqs, led, id);
    TakePool(c, pool, reqs, led, id);
    TakeKv(c, pool, reqs, led, kv, id);
    var v := TakeFront(pool).value;
    pool', b := v.0, v.1;
  }

  /** Second half: the tokens are scheduled, and a page they complete is published. */
  lemma GrowFill(c: Config, pool: Pool, reqs: seq<Req>, reqs': seq<Req>, led: Ledger, kv: Memory, id: nat, i: nat,
                 e: nat)
    returns (pool': Pool, led': Ledger)
    requires World(c, pool, reqs, led) && KvPending(c, pool, reqs, led, kv)
    requires id < |reqs| && |reqs[id].table| == i + 1
    requires reqs[id].Context() <= e <= |reqs[id].tokens| && e <= Start(i + 1, c.B)
    requires reqs' == reqs[id := reqs[id].(newToks := e - reqs[id].cached)]
    requires AllBelow(reqs[id].table, |pool.pages|)
    requires !pool.pages[reqs[id].table[i]].Published()
    requires i > 0 ==> pool.pages[reqs[id].table[i - 1]].Published()
    ensures pool' == if e == Start(i + 1, c.B) then PublishEntry(c, pool, reqs[id], i) else pool
    ensures World(c, pool', reqs', led')
    ensures KvPending(c, pool', reqs', led', kv)
    ensures LedgerExtends(led, led')
    ensures forall x: nat :: x < |reqs| && x != id && e == Start(i + 1, c.B) ==> reqs[id].table[i] !in reqs[x].table
  {
    var r' := reqs'[id];
    assert TableOk(c, pool.pages, led, reqs[id]);
    assert TableOk(c, pool.pages, led, r') by {
      forall j: nat | j < |r'.table|
        ensures EntryOk(c, pool.pages, led, r', j)
      {
        assert EntryOk(c, pool.pages, led, reqs[id], j);
      }
    }
    ProgressWorld(c, pool, reqs, led, id, r');
    ScheduleKv(c, pool, reqs, led, kv, id, r'.newToks);
    pool', led' := pool, led;
    if e == Start(i + 1, c.B) {
      PublishWorld(c, pool, reqs', led, id, i);
      PublishKv(c, pool, reqs', led, kv, id, i);
      pool' := PublishEntry(c, pool, r', i);
      led' := PublishLedger(c, pool, led, r', i);
      forall x: nat | x < |reqs| && x != id
        ensures reqs[id].table[i] !in reqs[x].table
      {
        Exclusive(c, pool, reqs', led, id, i, x);
      }
    }
  }

  ghost predicate GrowReady(c: Config, pool: Pool, reqs: seq<Req>, led: Ledger, kv: Memory, id: nat, end: nat) {
    && Consistent(c, pool, reqs, led, kv)
    && id < |reqs|
    && reqs[id].Context() <= end <= |reqs[id].tokens|
    && Ceil(end, c.B) - |reqs[id].table| <= |pool.free|
  }

  /** What one round or a whole loop did to the request: the table grew, one page off the free list for each new
      entry. */
  ghost predicate Grown(c: Config, pool: Pool, pool': Pool, r: Req, r': Req) {
    && r' == r.(table := r'.table, newToks := r'.newToks)
    && r.table <= r'.table
    && r.newToks <= r'.newToks
    && |pool'.free| + |r'.table| == |pool.free| + |r.table|
    && |pool'.pages| == |pool.pages|
  }

  lemma ContextPage(c: Config, pages: seq<Page>, r: Req, i: nat)
    requires Aligned(c, pages, r) && i == r.Context() / c.B
    ensures |r.table| == if r.Context() == Start(i, c.B) then i else i + 1
    ensures Start(i, c.B) <= r.Context() < Start(i + 1, c.B)
    ensures i < |r.table| ==> !pages[r.table[i]].Published()
    ensures i > 0 ==> pages[r.table[i - 1]].Published()
  {
    CeilOfContext(r.Context(), c.B);
    if i < |r.table| {
      AlignedEntry(c, pages, r, i);
    }
    if i > 0 {
      AlignedEntry(c, pages, r, i - 1);
    }
  }

  lemma PublishedLineage(c: Config, pool: Pool, led: Ledger, b: nat)
    requires PagesOk(c, pool, led) && KeysOk(pool, led) && b < |pool.pages| && pool.pages[b].Published()
    ensures LineageOf(pool.pages, b) == Ok(pool.pages[b].lin)
  {
    assert PageOk(c, led, pool.pages[b]);
    assert KeyOk(pool.pages, pool.pages[b].lin);
  }

  lemma RoomForPage(c: Config, ctx: nat, end: nat, n: nat)
    requires n == ctx / c.B && ctx == Start(n, c.B) && ctx < end
    ensures Ceil(end, c.B) > n
  {
    CeilBounds(end, c.B);
    StartStrict(n, Ceil(end, c.B), c.B);
  }

  /** The grown table is aligned again. */
  lemma GrownAligned(c: Config, pages: seq<Page>, pages': seq<Page>, r: Req, r': Req, i: nat, e: nat)
    requires Aligned(c, pages, r) && |pages'| == |pages|
    requires i == r.Context() / c.B && r.Context() < e <= Start(i + 1, c.B)
    requires r.table <= r'.table && |r'.table| == i + 1 && AllBelow(r'.table, |pages|)
    requires r'.Context() == e
    requires forall j: nat :: j < i ==> pages'[r'.table[j]].hash == pages[r'.table[j]].hash
    requires pages'[r'.table[i]].Published() <==> e == Start(i + 1, c.B)
    ensures Aligned(c, pages', r')
  {
    CeilOfContext(r.Context(), c.B);
    CeilUnique(e, c.B, i + 1);
    forall j: nat | j < |r'.table|
      ensures pages'[r'.table[j]].Published() <==> Start(j + 1, c.B) <= e
    {
      if j < i {
        StartMono(j + 1, i, c.B);
        AlignedEntry(c, pages, r, j);
      }
    }
  }

  lemma OthersAligned(c: Config, pool: Pool, pool': Pool, reqs: seq<Req>, id: nat, r': Req, b: nat)
    requires id < |reqs| && |pool'.pages| == |pool.pages| && AllAligned(c, pool, reqs)
    requires forall x: nat :: x < |pool.pages| && x != b ==> pool'.pages[x].hash == pool.pages[x].hash
    requires b < |pool.pages| && (pool'.pages[b].hash == pool.pages[b].hash || forall x: nat ::
               x < |reqs| && x != id ==> b !in reqs[x].table)
    requires Aligned(c, pool'.pages, r')
    ensures AllAligned(c, pool', reqs[id := r'])
  {
    var reqs' := reqs[id := r'];
    forall x: nat | x < |reqs'|
      ensures Aligned(c, pool'.pages, reqs'[x])
    {
      if x != id {
        assert Aligned(c, pool.pages, reqs[x]);
        AlignedFrame(c, pool.pages, pool'.pages, reqs[x]);
      }
    }
  }

  lemma GrowStepOk(c: Config, pool: Pool, reqs: seq<Req>, led: Ledger, kv: Memory, id: nat, end: nat)
    returns (led': Ledger)
    requires GrowReady(c, pool, reqs, led, kv, id, end) && reqs[id].Context() < end
    ensures GrowStep(c, pool, reqs[id], end).Ok?
    ensures var (pool', r') := GrowStep(c, pool, reqs[id], end).value;
            && Consistent(c, pool', reqs[id := r'], led', kv)
            && Grown(c, pool, pool', reqs[id], r')
            && reqs[id].Context() < r'.Context() <= end
    ensures LedgerExtends(led, led')
  {
    var r := reqs[id];
    var i := r.Context() / c.B;
    assert Aligned(c, pool.pages, reqs[id]);
    ContextPage(c, pool.pages, r, i);
    if i < |r.table| {
      led' := GrowStepOn(c, pool, reqs, pool, reqs, r, led, kv, id, end, i);
    } else {
      RoomForPage(c, r.Context(), end, i);
      var pool1, b := GrowTake(c, pool, reqs, led, kv, id);
      led' := GrowStepOn(c, pool, reqs, pool1, reqs[id := r.(table := r.table + [b])], r.(table := r.table + [b]), led,
                         kv, id, end, i);
    }
  }

  /** The round computes exactly the pool and request that the two halves build. */
  lemma GrowStepResult(c: Config, pool: Pool, r: Req, end: nat, i: nat, pool1: Pool, r1: Req, e: nat, pool2: Pool)
    requires r.Context() < end <= |r.tokens| && i == r.Context() / c.B <= |r.table|
    requires |r1.table| == i + 1 && r1.table[i] < |pool1.pages| && r1 == r.(table := r1.table)
    requires i > 0 ==> r1.table[i - 1] < |pool1.pages|
    requires LineageOf(pool.pages, Before(r.table, i)) == Ok(ParentOf(pool1, r1, i))
    requires i < |r.table| ==> pool1 == pool && r1 == r && !pool.pages[r.table[i]].Published()
    requires i == |r.table| ==> TakeFront(pool) == Ok((pool1, r1.table[i])) && r1.table == r.table + [r1.table[i]]
    requires r.Context() < e == Min(Start(i + 1, c.B), end)
    requires pool2 == if e == Start(i + 1, c.B) then PublishEntry(c, pool1, r1, i) else pool1
    ensures GrowStep(c, pool, r, end) == Ok((pool2, r1.(newToks := e - r.cached)))
  {
  }

  lemma GrowStepAligned(c: Config, pool: Pool, pool': Pool, reqs: seq<Req>, led: Ledger, id: nat, r': Req, i: nat,
                        e: nat)
    requires AllAligned(c, pool, reqs) && id < |reqs| && |pool'.pages| == |pool.pages|
    requires i == reqs[id].Context() / c.B && reqs[id].Context() < e <= Start(i + 1, c.B)
    requires reqs[id].table <= r'.table && |r'.table| == i + 1 && AllBelow(r'.table, |pool.pages|) && NoDup(r'.table)
    requires r'.Context() == e
    requires forall x: nat :: x < |pool.pages| && x != r'.table[i] ==> pool'.pages[x].hash == pool.pages[x].hash
    requires pool'.pages[r'.table[i]].Published() <==> e == Start(i + 1, c.B)
    requires pool'.pages[r'.table[i]].hash == pool.pages[r'.table[i]].hash
             || forall x: nat :: x < |reqs| && x != id ==> r'.table[i] !in reqs[x].table
    ensures AllAligned(c, pool', reqs[id := r'])
  {
    assert Aligned(c, pool.pages, reqs[id]);
    GrownAligned(c, pool.pages, pool'.pages, reqs[id], r', i, e);
    OthersAligned(c, pool, pool', reqs, id, r', r'.table[i]);
  }

  lemma GrowStepWorld(c: Config, pool: Pool, reqs: seq<Req>, pool1: Pool, reqs1: seq<Req>, r1: Req, led: Ledger,
                      kv: Memory, id: nat, end: nat, i: nat)
    returns (led': Ledger, pool2: Pool, e: nat)
    requires PagesOk(c, pool, led) && KeysOk(pool, led) && AllAligned(c, pool, reqs)
    requires id < |reqs| && reqs[id].Context() < end <= |reqs[id].tokens|
             && i == reqs[id].Context() / c.B <= |reqs[id].table|
    requires Aligned(c, pool.pages, reqs[id])
    requires World(c, pool1, reqs1, led) && KvPending(c, pool1, reqs1, led, kv)
    requires r1 == reqs[id].(table := r1.table) && reqs1 == reqs[id := r1] && |r1.table| == i + 1
    requires AllBelow(r1.table, |pool.pages|) && |pool1.pages| == |pool.pages|
    requires pool1.pages == pool.pages[r1.table[i] := pool1.pages[r1.table[i]]]
    requires !pool1.pages[r1.table[i]].Published()
    requires i < |reqs[id].table| ==> pool1 == pool && r1 == reqs[id]
    requires i == |reqs[id].table| ==> TakeFront(pool) == Ok((pool1, r1.table[i])) && |pool1.free| == |pool.free| - 1
                                       && r1.table == reqs[id].table + [r1.table[i]]
                                       && forall x: nat :: x < |reqs| ==> r1.table[i] !in reqs[x].table
    ensures reqs[id].Context() < e == Min(Start(i + 1, c.B), end)
    ensures pool2 == if e == Start(i + 1, c.B) then PublishEntry(c, pool1, r1, i) else pool1
    ensures GrowStep(c, pool, reqs[id], end) == Ok((pool2, r1.(newToks := e - reqs[id].cached)))
    ensures World(c, pool2, reqs[id := r1.(newToks := e - reqs[id].cached)], led')
    ensures KvPending(c, pool2, reqs[id := r1.(newToks := e - reqs[id].cached)], led', kv)
    ensures LedgerExtends(led, led')
    ensures forall x: nat :: x < |reqs| && x != id && e == Start(i + 1, c.B) ==> r1.table[i] !in reqs[x].table
  {
    var r := reqs[id];
    ContextPage(c, pool.pages, r, i);
    e := Min(Start(i + 1, c.B), end);
    var reqs2 := reqs[id := r1.(newToks := e - r.cached)];
    assert reqs2 == reqs1[id := r1.(newToks := e - r.cached)];
    if i > 0 {
      DistinctEntries(c, pool1, reqs1, led, id, i - 1, i);
      PublishedLineage(c, pool, led, r.table[i - 1]);
    }
    pool2, led' := GrowFill(c, pool1, reqs1, reqs2, led, kv, id, i, e);
    GrowStepResult(c, pool, r, end, i, pool1, r1, e, pool2);
    assert forall x: nat :: x < |reqs| && x != id ==> reqs1[x] == reqs[x];
  }

  lemma GrowStepOn(c: Config, pool: Pool, reqs: seq<Req>, pool1: Pool, reqs1: seq<Req>, r1: Req, led: Ledger,
                   kv: Memory, id: nat, end: nat, i: nat)
    returns (led': Ledger)
    requires PagesOk(c, pool, led) && KeysOk(pool, led) && AllAligned(c, pool, reqs)
    requires id < |reqs| && reqs[id].Context() < end <= |reqs[id].tokens|
             && i == reqs[id].Context() / c.B <= |reqs[id].table|
    requires Aligned(c, pool.pages, reqs[id])
    requires World(c, pool1, reqs1, led) && KvPending(c, pool1, reqs1, led, kv)
    requires r1 == reqs[id].(table := r1.table) && reqs1 == reqs[id := r1] && |r1.table| == i + 1
    requires AllBelow(r1.table, |pool.pages|) && |pool1.pages| == |pool.pages|
    requires pool1.pages == pool.pages[r1.table[i] := pool1.pages[r1.table[i]]]
    requires !pool1.pages[r1.table[i]].Published()
    requires i < |reqs[id].table| ==> pool1 == pool && r1 == reqs[id]
    requires i == |reqs[id].table| ==> TakeFront(pool) == Ok((pool1, r1.table[i])) && |pool1.free| == |pool.free| - 1
                                       && r1.table == reqs[id].table + [r1.table[i]]
                                       && forall x: nat :: x < |reqs| ==> r1.table[i] !in reqs[x].table
    ensures GrowStep(c, pool, reqs[id], end).Ok?
    ensures var (pool', r') := GrowStep(c, pool, reqs[id], end).value;
            && Consistent(c, pool', reqs[id := r'], led', kv)
            && Grown(c, pool, pool', reqs[id], r')
            && reqs[id].Context() < r'.Context() <= end
    ensures LedgerExtends(led, led')
  {
    var pool2, e;
    led', pool2, e := GrowStepWorld(c, pool, reqs, pool1, reqs1, r1, led, kv, id, end, i);
    assert NoDup(r1.table) by { assert TableOk(c, pool1.pages, led, reqs1[id]); }
    GrowStepAligned(c, pool, pool2, reqs, led, id, r1.(newToks := e - reqs[id].cached), i, e);
  }

  lemma DistinctEntries(c: Config, pool: Pool, reqs: seq<Req>, led: Ledger, id: nat, j: nat, i: nat)
    requires TablesOk(c, pool, led, reqs) && id < |reqs| && j < i < |reqs[id].table|
    ensures reqs[id].table[j] != reqs[id].table[i]
  {
    assert TableOk(c, pool.pages, led, reqs[id]);
  }

  /** The whole loop succeeds, ends exactly at `end`, and takes exactly the pages it was promised. */
  lemma {:induction false} GrowOk(c: Config, pool: Pool, reqs: seq<Req>, led: Ledger, kv: Memory, id: nat, end: nat)
    returns (led': Ledger)
    requires GrowReady(c, pool, reqs, led, kv, id, end)
    ensures Grow(c, pool, reqs[id], end).Ok?
    ensures var (pool', r') := Grow(c, pool, reqs[id], end).value;
            && Consistent(c, pool', reqs[id := r'], led', kv)
            && Grown(c, pool, pool', reqs[id], r')
            && r'.Context() == end && |r'.table| == Ceil(end, c.B)
    ensures LedgerExtends(led, led')
    decreases end - reqs[id].Context()
  {
    if reqs[id].Context() >= end {
      led' := led;
      assert reqs[id := reqs[id]] == reqs;
      assert Aligned(c, pool.pages, reqs[id]);
    } else {
      var led1 := GrowStepOk(c, pool, reqs, led, kv, id, end);
      var v := GrowStep(c, pool, reqs[id], end).value;
      var pool1, r1 := v.0, v.1;
      var reqs1 := reqs[id := r1];
      led' := GrowOk(c, pool1, reqs1, led1, kv, id, end);
      var w := Grow(c, pool1, r1, end).value;
      assert reqs1[id := w.1] == reqs[id := w.1];
    }
  }

  /** Nothing is scheduled for the request, and its table holds only completely cached pages. */
  predicate Settled(c: Config, r: Req) {
    r.newToks == 0 && r.cached == Start(|r.table|, c.B)
  }

  /** A published entry's parent is the lineage of the entry before it. */
  lemma EntryParent(c: Config, pool: Pool, led: Ledger, r: Req, i: nat)
    requires PagesOk(c, pool, led) && KeysOk(pool, led) && TableOk(c, pool.pages, led, r)
    requires i < |r.table| && pool.pages[r.table[i]].Published()
    ensures LineageOf(pool.pages, Before(r.table, i)) == Ok(pool.pages[r.table[i]].parent)
  {
    assert EntryOk(c, pool.pages, led, r, i);
    if i > 0 {
      PublishedLineage(c, pool, led, r.table[i - 1]);
    }
  }

  /** A published entry carries exactly the hash and the tokens of its block. */
  lemma EntryBlock(c: Config, pool: Pool, led: Ledger, r: Req, i: nat)
    requires PagesOk(c, pool, led) && KeysOk(pool, led) && TableOk(c, pool.pages, led, r)
    requires i < |r.table| && pool.pages[r.table[i]].Published()
    ensures Start(i + 1, c.B) <= |r.tokens|
    ensures pool.pages[r.table[i]].hash == BlockHash(c, r.tokens, i)
    ensures pool.pages[r.table[i]].tokens == r.Block(i, c.B)
  {
    assert EntryOk(c, pool.pages, led, r, i);
    assert PageOk(c, led, pool.pages[r.table[i]]);
    BlockIsSlice(c, r, i);
  }

  lemma ClaimedPageHolds(c: Config, pool: Pool, reqs: seq<Req>, led: Ledger, id: nat, i: nat)
    requires PagesOk(c, pool, led) && KeysOk(pool, led) && RefsOk(pool, reqs) && TablesOk(c, pool, led, reqs)
    requires id < |reqs| && reqs[id].cached == Start(|reqs[id].table|, c.B) && i < |reqs[id].table|
    ensures ClaimedPageValid(c, pool, reqs[id], i)
  {
    var r := reqs[id];
    var b := r.table[i];
    assert TableOk(c, pool.pages, led, reqs[id]);
    StartMono(i + 1, |r.table|, c.B);
    assert EntryOk(c, pool.pages, led, r, i);
    EntryParent(c, pool, led, r, i);
    EntryBlock(c, pool, led, r, i);
    PublishedLineage(c, pool, led, b);
    assert RefOk(pool, reqs, b);
    assert id in Users(reqs, b);
  }

  /** `_validate_claimed_prefix` never fails on a settled request. */
  lemma ClaimedPrefixHolds(c: Config, pool: Pool, reqs: seq<Req>, led: Ledger, id: nat)
    requires World(c, pool, reqs, led) && id < |reqs| && reqs[id].cached == Start(|reqs[id].table|, c.B)
    ensures ClaimedPrefixValid(c, pool, reqs[id])
  {
    forall i | 0 <= i < |reqs[id].table|
      ensures ClaimedPageValid(c, pool, reqs[id], i)
    {
      ClaimedPageHolds(c, pool, reqs, led, id, i);
    }
  }

  /** `allocate_new` on a settled request takes exactly `ceil(n / B)` pages, and none of its assertions fails. */
  lemma AllocateNewOk(c: Config, pool: Pool, reqs: seq<Req>, led: Ledger, kv: Memory, id: nat, n: nat)
    returns (led': Ledger)
    requires Consistent(c, pool, reqs, led, kv) && id < |reqs| && Settled(c, reqs[id])
    requires reqs[id].cached + n <= |reqs[id].tokens| && Ceil(n, c.B) <= |pool.free|
    ensures AllocateNew(c, pool, reqs[id].(newToks := n)).Ok?
    ensures var (pool', r') := AllocateNew(c, pool, reqs[id].(newToks := n)).value;
            && Consistent(c, pool', reqs[id := r'], led', kv)
            && r' == reqs[id].(table := r'.table, newToks := n) && reqs[id].table <= r'.table
            && |r'.table| == |reqs[id].table| + Ceil(n, c.B)
            && |pool'.free| == |pool.free| - Ceil(n, c.B) && |pool'.pages| == |pool.pages|
    ensures LedgerExtends(led, led')
  {
    var r := reqs[id];
    ClaimedPrefixHolds(c, pool, reqs, led, id);
    assert ClaimedPrefixValid(c, pool, r.(newToks := n)) by { ValidIgnoresNew(c, pool, r, n); }
    CeilSplit(|r.table|, n, c.B);
    assert r.(newToks := n).(newToks := 0) == r;
    led' := GrowOk(c, pool, reqs, led, kv, id, r.cached + n);
  }

  lemma ValidIgnoresNew(c: Config, pool: Pool, r: Req, n: nat)
    requires ClaimedPrefixValid(c, pool, r)
    ensures ClaimedPrefixValid(c, pool, r.(newToks := n))
  {
    var r' := r.(newToks := n);
    forall i | 0 <= i < |r'.table|
      ensures ClaimedPageValid(c, pool, r', i)
    {
      assert ClaimedPageValid(c, pool, r, i);
      assert r'.Block(i, c.B) == r.Block(i, c.B);
    }
  }

  /** `may_append` takes exactly `num_blocks_to_append` pages, and none of its assertions fails. */
  lemma MayAppendOk(c: Config, pool: Pool, reqs: seq<Req>, led: Ledger, kv: Memory, id: nat, n: nat)
    returns (led': Ledger)
    requires Consistent(c, pool, reqs, led, kv) && id < |reqs| && reqs[id].newToks == 0 && n > 0
    requires reqs[id].cached + n <= |reqs[id].tokens| && NumBlocksToAppend(c, reqs[id], n) <= |pool.free|
    ensures MayAppend(c, pool, reqs[id].(newToks := n)).Ok?
    ensures var (pool', r') := MayAppend(c, pool, reqs[id].(newToks := n)).value;
            && Consistent(c, pool', reqs[id := r'], led', kv)
            && r' == reqs[id].(table := r'.table, newToks := n) && reqs[id].table <= r'.table
            && |r'.table| == |reqs[id].table| + NumBlocksToAppend(c, reqs[id], n)
            && |pool'.free| == |pool.free| - NumBlocksToAppend(c, reqs[id], n) && |pool'.pages| == |pool.pages|
    ensures LedgerExtends(led, led')
  {
    var r := reqs[id];
    assert Aligned(c, pool.pages, reqs[id]);
    CeilMono(r.cached, r.cached + n, c.B);
    assert r.(newToks := n).(newToks := 0) == r;
    led' := GrowOk(c, pool, reqs, led, kv, id, r.cached + n);
  }
}
