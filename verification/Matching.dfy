/** Prefix lookup and claiming: what a plan means, and why it stays claimable. */
module Matching {
  import opened Arith
  import opened Seqs
  import opened Requests
  import opened Pages
  import opened CacheInvariant
  import opened KvMemory
  import opened Growth

  /** Entry `k` of a plan: the mapped page for the next block, standing for exactly the request's prefix. */
  ghost predicate PlanEntry(c: Config, pool: Pool, led: Ledger, r: Req, ids: seq<nat>, k: nat)
    requires k < |ids|
  {
    var i := |r.table| + k;
    && i < r.NumBlocks(c.B) - 1
    && Start(i + 1, c.B) <= |r.tokens|
    && BlockHash(c, r.tokens, i) in pool.owner
    && pool.owner[BlockHash(c, r.tokens, i)] == ids[k]
    && ids[k] < |pool.pages|
    && ids[k] !in r.table && ids[k] !in ids[..k]
    && LineageOf(pool.pages, Previous(r.table, ids[..k])).Ok?
    && Extends(c, pool, r, i, LineageOf(pool.pages, Previous(r.table, ids[..k])).value, ids[k])
    && Hist(led, pool.pages[ids[k]].lin) == r.tokens[..Start(i + 1, c.B)]
  }

  ghost predicate PlanOk(c: Config, pool: Pool, led: Ledger, r: Req, ids: seq<nat>) {
    forall k: nat {:trigger PlanEntry(c, pool, led, r, ids, k)} :: k < |ids| ==> PlanEntry(c, pool, led, r, ids, k)
  }

  /** What a published page stands for. */
  lemma PageHistory(c: Config, pool: Pool, led: Ledger, b: nat)
    requires PagesOk(c, pool, led) && KeysOk(pool, led) && b < |pool.pages| && pool.pages[b].Published()
    ensures LineageOf(pool.pages, b) == Ok(pool.pages[b].lin) && pool.pages[b].lin in led
  {
    PublishedLineage(c, pool, led, b);
    assert PageOk(c, led, pool.pages[b]);
  }

  lemma EntryFacts(c: Config, pool: Pool, led: Ledger, r: Req, ids: seq<nat>, k: nat)
    requires k < |ids| && PlanEntry(c, pool, led, r, ids, k)
    ensures ids[k] < |pool.pages| && pool.pages[ids[k]].Published()
    ensures Start(|r.table| + k + 1, c.B) <= |r.tokens|
    ensures Hist(led, pool.pages[ids[k]].lin) == r.tokens[..Start(|r.table| + k + 1, c.B)]
  {
    hide Hist, BlockHash, LineageOf, Start;
  }

  lemma PlanLast(c: Config, pool: Pool, led: Ledger, r: Req, ids: seq<nat>)
    requires PlanOk(c, pool, led, r, ids) && ids != []
    ensures ids[|ids| - 1] < |pool.pages| && pool.pages[ids[|ids| - 1]].Published()
    ensures Start(|r.table| + |ids|, c.B) <= |r.tokens|
    ensures Hist(led, pool.pages[ids[|ids| - 1]].lin) == r.tokens[..Start(|r.table| + |ids|, c.B)]
  {
    hide PlanEntry, Hist, Start;
    EntryFacts(c, pool, led, r, ids, |ids| - 1);
  }

  lemma TableLast(c: Config, pages: seq<Page>, led: Ledger, r: Req)
    requires TableOk(c, pages, led, r) && Settled(c, r) && r.table != []
    ensures r.table[|r.table| - 1] < |pages| && pages[r.table[|r.table| - 1]].Published()
    ensures Start(|r.table|, c.B) <= |r.tokens|
    ensures Hist(led, pages[r.table[|r.table| - 1]].lin) == r.tokens[..Start(|r.table|, c.B)]
  {
    assert EntryOk(c, pages, led, r, |r.table| - 1);
  }

  /** The history of the page the plan would extend next. */
  lemma LastHistory(c: Config, pool: Pool, reqs: seq<Req>, led: Ledger, id: nat, ids: seq<nat>)
    requires PagesOk(c, pool, led) && KeysOk(pool, led) && TablesOk(c, pool, led, reqs)
    requires id < |reqs| && Settled(c, reqs[id]) && PlanOk(c, pool, led, reqs[id], ids)
    ensures var l := LineageOf(pool.pages, Previous(reqs[id].table, ids));
            && l.Ok? && (l.value == ROOT || l.value in led)
            && Start(|reqs[id].table| + |ids|, c.B) <= |reqs[id].tokens|
            && Hist(led, l.value) == reqs[id].tokens[..Start(|reqs[id].table| + |ids|, c.B)]
  {
    hide PlanOk, PagesOk, KeysOk, TableOk, Settled;
    var r := reqs[id];
    assert TableOk(c, pool.pages, led, reqs[id]);
    NotInLedger(pool, led, ROOT);
    if |ids| > 0 {
      PlanLast(c, pool, led, r, ids);
      PageHistory(c, pool, led, ids[|ids| - 1]);
    } else if |r.table| > 0 {
      TableLast(c, pool.pages, led, r);
      PageHistory(c, pool, led, r.table[|r.table| - 1]);
    }
  }

  /** A page that extends the chain stands for the request's own prefix, whatever the hash function. */
  lemma ExtensionMeaning(c: Config, pool: Pool, led: Ledger, r: Req, i: nat, parent: Lineage, b: nat)
    requires PagesOk(c, pool, led) && Start(i + 1, c.B) <= |r.tokens|
    requires Hist(led, parent) == r.tokens[..Start(i, c.B)]
    requires Extends(c, pool, r, i, parent, b)
    ensures Hist(led, pool.pages[b].lin) == r.tokens[..Start(i + 1, c.B)]
  {
    assert PageOk(c, led, pool.pages[b]);
    BlockIsSlice(c, r, i);
  }

  lemma PlanSnoc(c: Config, pool: Pool, led: Ledger, r: Req, ids: seq<nat>, b: nat)
    requires PlanOk(c, pool, led, r, ids) && b !in r.table && b !in ids
    requires PlanEntry(c, pool, led, r, ids + [b], |ids|)
    ensures PlanOk(c, pool, led, r, ids + [b])
  {
    var ids' := ids + [b];
    forall k: nat | k < |ids'|
      ensures PlanEntry(c, pool, led, r, ids', k)
    {
      if k < |ids| {
        assert PlanEntry(c, pool, led, r, ids, k);
        assert ids'[..k] == ids[..k];
      }
    }
  }

  /** One page more keeps the plan a plan. */
  lemma MatchStep(c: Config, pool: Pool, reqs: seq<Req>, led: Ledger, id: nat, matched: seq<nat>, b: nat)
    requires PagesOk(c, pool, led) && KeysOk(pool, led) && TablesOk(c, pool, led, reqs)
    requires id < |reqs| && Settled(c, reqs[id]) && PlanOk(c, pool, led, reqs[id], matched)
    requires |reqs[id].table| + |matched| < reqs[id].NumBlocks(c.B) - 1
    requires Start(|reqs[id].table| + |matched| + 1, c.B) <= |reqs[id].tokens|
    requires var h := BlockHash(c, reqs[id].tokens, |reqs[id].table| + |matched|);
             h in pool.owner && pool.owner[h] == b && b < |pool.pages|
    requires LineageOf(pool.pages, Previous(reqs[id].table, matched)).Ok?
    requires Extends(c, pool, reqs[id], |reqs[id].table| + |matched|,
                     LineageOf(pool.pages, Previous(reqs[id].table, matched)).value, b)
    requires b !in reqs[id].table && b !in matched
    ensures PlanOk(c, pool, led, reqs[id], matched + [b])
  {
    hide Extends, BlockHash, PlanOk, LineageOf, Previous, Settled, PagesOk, KeysOk, TablesOk;
    LastHistory(c, pool, reqs, led, id, matched);
    ExtensionMeaning(c, pool, led, reqs[id], |reqs[id].table| + |matched|,
                     LineageOf(pool.pages, Previous(reqs[id].table, matched)).value, b);
    assert (matched + [b])[..|matched|] == matched;
    PlanSnoc(c, pool, led, reqs[id], matched, b);
  }

  lemma {:induction false} MatchFromSound(c: Config, pool: Pool, reqs: seq<Req>, led: Ledger, id: nat, stop: nat,
                                          matched: seq<nat>)
    requires PagesOk(c, pool, led) && KeysOk(pool, led) && TablesOk(c, pool, led, reqs)
    requires id < |reqs| && Settled(c, reqs[id]) && PlanOk(c, pool, led, reqs[id], matched)
    requires stop <= Max(|reqs[id].table|, reqs[id].NumBlocks(c.B) - 1)
    ensures var m := MatchFrom(c, pool, reqs[id], |reqs[id].table| + |matched|, stop, matched);
            m.Ok? && PlanOk(c, pool, led, reqs[id], m.value)
    decreases stop - |matched|
  {
    var r := reqs[id];
    var i := |r.table| + |matched|;
    if i < stop && Start(i + 1, c.B) <= |r.tokens| {
      var h := BlockHash(c, r.tokens, i);
      if h in pool.owner && pool.owner[h] < |pool.pages| {
        var b := pool.owner[h];
        LastHistory(c, pool, reqs, led, id, matched);
        var parent := LineageOf(pool.pages, Previous(r.table, matched)).value;
        if Extends(c, pool, r, i, parent, b) && b !in r.table && b !in matched {
          MatchStep(c, pool, reqs, led, id, matched, b);
          MatchFromSound(c, pool, reqs, led, id, stop, matched + [b]);
        }
      }
    }
  }

  /** Prefix-match soundness for any hash function: `match_prefix` never fails, and the page it returns
      for block `k` stands for exactly the request's tokens up to the end of that block. */
  lemma MatchPrefixSound(c: Config, pool: Pool, reqs: seq<Req>, led: Ledger, id: nat)
    requires World(c, pool, reqs, led) && id < |reqs| && Settled(c, reqs[id])
    ensures MatchPrefix(c, pool, reqs[id]).Ok?
    ensures PlanOk(c, pool, led, reqs[id], MatchPrefix(c, pool, reqs[id]).value)
  {
    ClaimedPrefixHolds(c, pool, reqs, led, id);
    var r := reqs[id];
    assert TableOk(c, pool.pages, led, reqs[id]);
    MatchFromSound(c, pool, reqs, led, id, Max(|r.table|, r.NumBlocks(c.B) - 1), []);
  }

  lemma {:induction false} MatchFromLongest(c: Config, pool: Pool, led: Ledger, r: Req, stop: nat, matched: seq<nat>,
                                            ids: seq<nat>)
    requires PlanOk(c, pool, led, r, ids) && matched <= ids
    requires stop >= r.NumBlocks(c.B) - 1
    requires MatchFrom(c, pool, r, |r.table| + |matched|, stop, matched).Ok?
    ensures ids <= MatchFrom(c, pool, r, |r.table| + |matched|, stop, matched).value
    decreases stop - |matched|
  {
    var k := |matched|;
    if k < |ids| {
      assert PlanEntry(c, pool, led, r, ids, k);
      assert matched == ids[..k];
      MatchFromLongest(c, pool, led, r, stop, matched + [ids[k]], ids);
    } else {
      assert matched == ids;
      MatchFromKeeps(c, pool, r, |r.table| + k, stop, matched);
    }
  }

  lemma {:induction false} MatchFromKeeps(c: Config, pool: Pool, r: Req, i: nat, stop: nat, matched: seq<nat>)
    requires MatchFrom(c, pool, r, i, stop, matched).Ok?
    ensures matched <= MatchFrom(c, pool, r, i, stop, matched).value
    decreases stop - i
  {
    if i < stop && Start(i + 1, c.B) <= |r.tokens| {
      var h := BlockHash(c, r.tokens, i);
      if h in pool.owner && pool.owner[h] < |pool.pages| {
        var b := pool.owner[h];
        var parent := LineageOf(pool.pages, Previous(r.table, matched)).value;
        if Extends(c, pool, r, i, parent, b) && b !in r.table && b !in matched {
          MatchFromKeeps(c, pool, r, i + 1, stop, matched + [b]);
        }
      }
    }
  }

  /** `match_prefix` finds the longest plan: every other plan the cache supports is a prefix of it. */
  lemma MatchPrefixLongest(c: Config, pool: Pool, reqs: seq<Req>, led: Ledger, id: nat, ids: seq<nat>)
    requires World(c, pool, reqs, led) && id < |reqs| && Settled(c, reqs[id])
    requires PlanOk(c, pool, led, reqs[id], ids)
    ensures MatchPrefix(c, pool, reqs[id]).Ok? && ids <= MatchPrefix(c, pool, reqs[id]).value
  {
    MatchPrefixSound(c, pool, reqs, led, id);
    var r := reqs[id];
    MatchFromLongest(c, pool, led, r, Max(|r.table|, r.NumBlocks(c.B) - 1), [], ids);
  }

  // ---------------------------------------------------------------- claiming a plan

  /** What claiming needs of entry `k`: the chain of lineages and histories, but not the hash map. */
  ghost predicate ChainEntry(c: Config, pages: seq<Page>, led: Ledger, r: Req, ids: seq<nat>, k: nat)
    requires k < |ids| && AllBelow(r.table, |pages|) && AllBelow(ids, |pages|)
  {
    var prev := Previous(r.table, ids[..k]);
    && pages[ids[k]].Published()
    && ids[k] !in r.table && ids[k] !in ids[..k]
    && Start(|r.table| + k + 1, c.B) <= |r.tokens|
    && Hist(led, pages[ids[k]].lin) == r.tokens[..Start(|r.table| + k + 1, c.B)]
    && (prev == -1 ==> pages[ids[k]].parent == ROOT)
    && (prev != -1 ==> pages[prev].Published() && pages[ids[k]].parent == pages[prev].lin)
  }

  ghost predicate ChainOk(c: Config, pages: seq<Page>, led: Ledger, r: Req, ids: seq<nat>) {
    && AllBelow(r.table, |pages|) && AllBelow(ids, |pages|)
    && forall k: nat {:trigger ChainEntry(c, pages, led, r, ids, k)} ::
         k < |ids| ==> ChainEntry(c, pages, led, r, ids, k)
  }

  lemma PlanIsChain(c: Config, pool: Pool, led: Ledger, r: Req, ids: seq<nat>)
    requires PlanOk(c, pool, led, r, ids) && AllBelow(r.table, |pool.pages|)
    ensures ChainOk(c, pool.pages, led, r, ids)
  {
    forall k | 0 <= k < |ids|
      ensures ids[k] < |pool.pages|
    {
      assert PlanEntry(c, pool, led, r, ids, k);
    }
    forall k: nat | k < |ids|
      ensures ChainEntry(c, pool.pages, led, r, ids, k)
    {
      assert PlanEntry(c, pool, led, r, ids, k);
    }
  }

  lemma ChainTail(c: Config, pages: seq<Page>, pages': seq<Page>, led: Ledger, r: Req, ids: seq<nat>)
    requires ChainOk(c, pages, led, r, ids) && ids != [] && SameIdentities(pages, pages')
    ensures ChainOk(c, pages', led, Claimed(c, r, ids[0]), ids[1..])
  {
    var r' := Claimed(c, r, ids[0]);
    var rest := ids[1..];
    forall k: nat | k < |rest|
      ensures ChainEntry(c, pages', led, r', rest, k)
    {
      ChainTailEntry(c, pages, pages', led, r, ids, k);
    }
  }

  lemma ChainTailEntry(c: Config, pages: seq<Page>, pages': seq<Page>, led: Ledger, r: Req, ids: seq<nat>, k: nat)
    requires ChainOk(c, pages, led, r, ids) && k + 1 < |ids| && SameIdentities(pages, pages')
    ensures ChainEntry(c, pages', led, Claimed(c, r, ids[0]), ids[1..], k)
  {
    assert ChainEntry(c, pages, led, r, ids, k + 1);
    assert ids[..k + 1] == [ids[0]] + ids[1..][..k];
    assert pages'[ids[k + 1]].(refs := 0) == pages[ids[k + 1]].(refs := 0);
    assert pages'[ids[k]].(refs := 0) == pages[ids[k]].(refs := 0);
    assert Previous(r.table, ids[..k + 1]) == ids[k];
    assert Previous(Claimed(c, r, ids[0]).table, ids[1..][..k]) == ids[k];
  }

  lemma CachedFreeStep(pool: Pool, pool': Pool, ids: seq<nat>)
    requires ids != [] && ids[0] !in ids[1..]
    requires forall x :: x in pool'.free <==> x in pool.free && x != ids[0]
    ensures CachedFree(pool, ids) == CachedFree(pool', ids[1..]) + (if ids[0] in pool.free then 1 else 0)
  {
    var a := FreeAmong(pool, ids);
    var a' := FreeAmong(pool', ids[1..]);
    assert ids == [ids[0]] + ids[1..];
    if ids[0] in pool.free {
      assert ids[0] !in a';
      assert a == a' + {ids[0]};
    } else {
      assert a == a';
    }
  }

  ghost predicate ClaimedAll(c: Config, pool: Pool, pool': Pool, r: Req, r': Req, ids: seq<nat>) {
    && r' == r.(table := r.table + ids, cached := r.cached + Start(|ids|, c.B))
    && SameIdentities(pool.pages, pool'.pages) && pool'.owner == pool.owner
    && (forall x :: x in pool'.free <==> x in pool.free && x !in ids)
    && |pool'.free| + CachedFree(pool, ids) == |pool.free|
  }

  lemma ClaimAligned(c: Config, pool: Pool, pool': Pool, reqs: seq<Req>, led: Ledger, id: nat, b: nat)
    requires AllAligned(c, pool, reqs) && id < |reqs| && ClaimReady(c, pool, led, reqs[id], b)
    requires SameIdentities(pool.pages, pool'.pages)
    ensures AllAligned(c, pool', reqs[id := Claimed(c, reqs[id], b)])
  {
    var r' := Claimed(c, reqs[id], b);
    var reqs' := reqs[id := r'];
    forall x: nat | x < |reqs'|
      ensures Aligned(c, pool'.pages, reqs'[x])
    {
      assert Aligned(c, pool.pages, reqs[x]);
      forall i: nat | i < |reqs[x].table|
        ensures pool'.pages[reqs[x].table[i]].hash == pool.pages[reqs[x].table[i]].hash
      {
        assert pool'.pages[reqs[x].table[i]].(refs := 0) == pool.pages[reqs[x].table[i]].(refs := 0);
      }
      AlignedFrame(c, pool.pages, pool'.pages, reqs[x]);
      if x == id {
        assert pool'.pages[b].(refs := 0) == pool.pages[b].(refs := 0);
        ClaimedAligned(c, pool'.pages, reqs[id], b);
      }
    }
  }

  lemma ClaimedAligned(c: Config, pages: seq<Page>, r: Req, b: nat)
    requires Aligned(c, pages, r) && Settled(c, r) && b < |pages| && pages[b].Published()
    ensures Aligned(c, pages, Claimed(c, r, b))
  {
    var r' := Claimed(c, r, b);
    CeilUnique(r'.Context(), c.B, |r.table| + 1);
    forall i: nat | i < |r'.table|
      ensures pages[r'.table[i]].Published() <==> Start(i + 1, c.B) <= r'.Context()
    {
      StartMono(i + 1, |r.table| + 1, c.B);
      if i < |r.table| {
        AlignedEntry(c, pages, r, i);
        StartMono(i + 1, |r.table|, c.B);
      }
    }
  }

  /** One claim keeps the shared cache consistent. */
  lemma ClaimPageOk(c: Config, pool: Pool, reqs: seq<Req>, led: Ledger, kv: Memory, id: nat, b: nat)
    requires Consistent(c, pool, reqs, led, kv) && id < |reqs| && ClaimReady(c, pool, led, reqs[id], b)
    ensures Consistent(c, ClaimPage(pool, b), reqs[id := Claimed(c, reqs[id], b)], led, kv)
  {
    ClaimWorld(c, pool, reqs, led, id, b);
    ClaimKv(c, pool, reqs, led, kv, id, b);
    ClaimPool(c, pool, reqs, led, b);
    ClaimAligned(c, pool, ClaimPage(pool, b), reqs, led, id, b);
  }

  lemma {:induction false} ClaimPagesOk(c: Config, pool: Pool, reqs: seq<Req>, led: Ledger, kv: Memory, id: nat,
                                        ids: seq<nat>)
    requires Consistent(c, pool, reqs, led, kv) && id < |reqs| && Settled(c, reqs[id])
    requires ChainOk(c, pool.pages, led, reqs[id], ids)
    ensures var (pool', r') := ClaimPages(c, pool, reqs[id], ids);
            && Consistent(c, pool', reqs[id := r'], led, kv)
            && ClaimedAll(c, pool, pool', reqs[id], r', ids)
    decreases |ids|
  {
    var r := reqs[id];
    if ids == [] {
      assert reqs[id := r] == reqs;
      assert r.table + ids == r.table;
      assert FreeAmong(pool, ids) == {};
    } else {
      var b := ids[0];
      assert ChainEntry(c, pool.pages, led, r, ids, 0);
      ClaimPageOk(c, pool, reqs, led, kv, id, b);
      ClaimPool(c, pool, reqs, led, b);
      var pool1 := ClaimPage(pool, b);
      var r1 := Claimed(c, r, b);
      var reqs1 := reqs[id := r1];
      ChainTail(c, pool.pages, pool1.pages, led, r, ids);
      ClaimPagesOk(c, pool1, reqs1, led, kv, id, ids[1..]);
      var v := ClaimPages(c, pool1, r1, ids[1..]);
      assert reqs1[id := v.1] == reqs[id := v.1];
      ClaimedAllStep(c, pool, pool1, v.0, led, r, v.1, ids);
    }
  }

  lemma ClaimedAllStep(c: Config, pool: Pool, pool1: Pool, pool2: Pool, led: Ledger, r: Req, r2: Req, ids: seq<nat>)
    requires ids != [] && ChainOk(c, pool.pages, led, r, ids)
    requires SameIdentities(pool.pages, pool1.pages) && pool1.owner == pool.owner
    requires forall x :: x in pool1.free <==> x in pool.free && x != ids[0]
    requires |pool1.free| == |pool.free| - (if ids[0] in pool.free then 1 else 0)
    requires ClaimedAll(c, pool1, pool2, Claimed(c, r, ids[0]), r2, ids[1..])
    ensures ClaimedAll(c, pool, pool2, r, r2, ids)
  {
    assert ids == [ids[0]] + ids[1..];
    assert r.table + ids == Claimed(c, r, ids[0]).table + ids[1..];
    assert ids[0] !in ids[1..] by {
      forall k | 0 <= k < |ids[1..]|
        ensures ids[1..][k] != ids[0]
      {
        assert ChainEntry(c, pool.pages, led, r, ids, k + 1);
        assert ids[0] in ids[..k + 1];
      }
    }
    CachedFreeStep(pool, pool1, ids);
    forall b: nat | b < |pool.pages|
      ensures pool2.pages[b].(refs := 0) == pool.pages[b].(refs := 0)
    {
      assert pool1.pages[b].(refs := 0) == pool.pages[b].(refs := 0);
    }
    StartAdd(1, |ids| - 1, c.B);
  }

  lemma {:induction false} PlanHasNoError(c: Config, pool: Pool, led: Ledger, r: Req, ids: seq<nat>, k: nat)
    requires PlanOk(c, pool, led, r, ids) && k <= |ids|
    ensures PlanError(c, pool, r, ids, k) == Ok(())
    decreases |ids| - k
  {
    if k < |ids| {
      assert PlanEntry(c, pool, led, r, ids, k);
      PlanHasNoError(c, pool, led, r, ids, k + 1);
    }
  }

  lemma PlanDistinct(c: Config, pool: Pool, led: Ledger, r: Req, ids: seq<nat>)
    requires PlanOk(c, pool, led, r, ids)
    ensures NoDup(ids)
  {
    forall i, j | 0 <= i < j < |ids|
      ensures ids[i] != ids[j]
    {
      assert PlanEntry(c, pool, led, r, ids, j);
      assert ids[i] in ids[..j];
    }
  }

  /** `claim_prefix` of a plan never raises, takes exactly the cached-free pages, and keeps the cache consistent. */
  lemma ClaimPrefixOk(c: Config, pool: Pool, reqs: seq<Req>, led: Ledger, kv: Memory, id: nat, ids: seq<nat>)
    requires Consistent(c, pool, reqs, led, kv) && id < |reqs| && Settled(c, reqs[id])
    requires PlanOk(c, pool, led, reqs[id], ids)
    ensures ClaimPrefix(c, pool, reqs[id], ids).Ok?
    ensures var (pool', r') := ClaimPrefix(c, pool, reqs[id], ids).value;
            && Consistent(c, pool', reqs[id := r'], led, kv)
            && ClaimedAll(c, pool, pool', reqs[id], r', ids)
            && Settled(c, r')
  {
    var r := reqs[id];
    assert TableOk(c, pool.pages, led, reqs[id]);
    ClaimedPrefixHolds(c, pool, reqs, led, id);
    PlanDistinct(c, pool, led, r, ids);
    PlanHasNoError(c, pool, led, r, ids, 0);
    PlanIsChain(c, pool, led, r, ids);
    ClaimPagesOk(c, pool, reqs, led, kv, id, ids);
    StartAdd(|r.table|, |ids|, c.B);
  }

  // ---------------------------------------------------------------- frozen plans

  /** Claims by other requests leave every page's identity and the hash map alone, so a plan stays a plan. */
  lemma PlanSurvivesClaims(c: Config, pool: Pool, pool': Pool, reqs: seq<Req>, reqs': seq<Req>, led: Ledger, r: Req,
                           ids: seq<nat>)
    requires PlanOk(c, pool, led, r, ids)
    requires SameIdentities(pool.pages, pool'.pages) && pool'.owner == pool.owner
    requires RefsOk(pool', reqs')
    requires AllBelow(r.table, |pool.pages|)
    ensures PlanOk(c, pool', led, r, ids)
  {
    forall k: nat | k < |ids|
      ensures PlanEntry(c, pool', led, r, ids, k)
    {
      assert PlanEntry(c, pool, led, r, ids, k);
      assert pool'.pages[ids[k]].(refs := 0) == pool.pages[ids[k]].(refs := 0);
      assert RefOk(pool', reqs', ids[k]);
      var prev := Previous(r.table, ids[..k]);
      if prev != -1 {
        assert pool'.pages[prev].(refs := 0) == pool.pages[prev].(refs := 0);
      }
    }
  }
}
