/** When preemption throws out everybody: one request has filled the pool, and what the step does with it is decided by
    how many of its own pages it finds again. */
module Drops {
  import opened Arith
  import opened Seqs
  import opened Requests
  import opened Pages
  import opened CacheInvariant
  import opened KvMemory
  import opened Growth
  import opened Matching
  import opened Boundary
  import opened Scheduling
  import opened SchedulerState
  import opened Steps
  import opened Ranking
  import opened Liveness
  import opened Runs
  import opened Termination
  import opened CutResume
  import opened WriteSafety
  import opened Forward
  import opened Engine
  import opened Ownership
  import opened Refill

  // ---------------------------------------------------------------- the request that fills the pool

  /** The only running request has all the pages, and needs one more. */
  lemma PoolFull(c: Config, s: Sys, led: Ledger, kv: Memory, x: nat)
    requires Nearly(c, s, led, kv) && s.running == [x] && s.chunked.None? && !DecodeFits(c, s) && c.maxBatch > 0
    ensures x < |s.reqs| && |s.reqs[x].table| == c.numBlocks && s.reqs[x].cached == Start(c.numBlocks, c.B)
    ensures s.reqs[x].newToks == 0 && Start(c.numBlocks, c.B) < |s.reqs[x].tokens|
  {
    hide World, KvComplete;
    assert Placed(s, x) && (!Cut(s) ==> Progress(s, x));
    assert Aligned(c, s.pool.pages, s.reqs[x]);
    forall y: nat | y < |s.reqs| && s.reqs[y].status == Running
      ensures Some(x) == Some(y)
    {
      assert Placed(s, y);
    }
    RestFree(c, s, led, kv, Some(x));
    assert s.running[1..] == [];
    assert SumAppend(c, s.reqs, s.running) == NumBlocksToAppend(c, s.reqs[x], 1) + SumAppend(c, s.reqs, []);
    var k := s.reqs[x].cached;
    CeilBounds(k, c.B);
    CeilBounds(k + 1, c.B);
    StartMono(Ceil(k, c.B), Ceil(k + 1, c.B) - 1, c.B);
  }

  /** What a drop leaves: everybody waits, the first of them at the front, and all pages are free but cached. */
  ghost predicate Dropped(c: Config, s: Sys, s0: Sys, led: Ledger, kv: Memory, x: nat) {
    && AtRest(c, s0, led, kv) && DecodeFits(c, s0) && s0.running == [] && s0.chunked.None?
    && s0.waiting != [] && s0.waiting[0] == x && x < |s0.reqs| == |s.reqs|
    && SameRequest(s.reqs[x], s0.reqs[x]) && Idle(s0.reqs[x]) && s0.reqs[x].newToks == 0
    && |s0.pool.free| == c.numBlocks && c.maxSeqs > 0
    && SameIdentities(s.pool.pages, s0.pool.pages) && s0.pool.owner == s.pool.owner
  }

  lemma DropFills(c: Config, s: Sys, led: Ledger, kv: Memory, x: nat)
    requires Nearly(c, s, led, kv) && !Keeps(c, s) && x == s.running[0] && c.maxBatch > 0
    ensures x < |s.reqs| && |s.reqs[x].table| == c.numBlocks && s.reqs[x].cached == Start(c.numBlocks, c.B)
    ensures s.reqs[x].newToks == 0 && Start(c.numBlocks, c.B) < |s.reqs[x].tokens|
  {
    hide Nearly, AtRest, DecodeFits, Preempt;
    DropSteppable(c, s, led, kv);
    var k := PreemptTailLongest(c, s, led, kv);
    if |s.running| == 1 {
      assert PreemptTo(c, s, 1) == Ok(s);
      assert s.running == [x];
      PoolFull(c, s, led, kv, x);
    } else {
      PreemptToOk(c, s, led, kv, 1);
      var s1 := PreemptTo(c, s, 1).value;
      assert s1.running == [x];
      RestIsSteppable(c, s1, led, kv);
      PoolFull(c, s1, led, kv, x);
      FirstKept(c, s, s1, led, kv, x);
    }
  }

  lemma FirstKept(c: Config, s: Sys, s1: Sys, led: Ledger, kv: Memory, x: nat)
    requires Nearly(c, s, led, kv) && |s.running| > 1 && x == s.running[0] && PreemptedTo(c, s, s1, 1)
    ensures x < |s.reqs| && s1.reqs[x] == s.reqs[x]
  {
    hide Quiescent;
    assert x !in s.running[1..];
  }

  lemma DropSteppable(c: Config, s: Sys, led: Ledger, kv: Memory)
    requires Nearly(c, s, led, kv) && !Keeps(c, s)
    ensures Steppable(c, s, led, kv) && s.running != [] && s.chunked.None?
  {
    hide Nearly, DecodeFits;
  }

  lemma DropLeaves(c: Config, s: Sys, led: Ledger, kv: Memory, x: nat)
    requires Nearly(c, s, led, kv) && !Keeps(c, s) && x == s.running[0]
    ensures PreemptTail(c, s).Ok? && Dropped(c, s, AfterPreemption(c, s), led, kv, x)
  {
    hide Nearly, AtRest, DecodeFits, Preempt, PreemptTail;
    DropSteppable(c, s, led, kv);
    var k := PreemptTailLongest(c, s, led, kv);
    PreemptKeepsPages(c, s);
    var s0 := AfterPreemption(c, s);
    assert s0.waiting == s.running + s.waiting by { assert [] + s0.waiting == s0.waiting; }
    RestIsSteppable(c, s0, led, kv);
    WaitingIdle(c, s0, led, kv, x);
    NobodyHolds(c, s0, led, kv);
    LiveSome(c, s, led, kv);
    assert SameRequest(s.reqs[x], s0.reqs[x]);
  }

  lemma NobodyHolds(c: Config, s: Sys, led: Ledger, kv: Memory)
    requires Nearly(c, s, led, kv) && s.running == [] && s.chunked.None?
    ensures |s.pool.free| == c.numBlocks
  {
    hide Quiescent;
    forall x: nat | x < |s.reqs|
      ensures s.reqs[x].status != Running
    {
      assert Placed(s, x);
    }
    RestFree(c, s, led, kv, None);
  }

  lemma LiveSome(c: Config, s: Sys, led: Ledger, kv: Memory)
    requires Nearly(c, s, led, kv) && s.running != []
    ensures c.maxSeqs > 0
  {
  }

  // ---------------------------------------------------------------- whose pages they are

  /** All pages are those of one request: its table was a chain of its own prefixes. */
  lemma FullChain(c: Config, s: Sys, led: Ledger, kv: Memory, x: nat)
    requires Nearly(c, s, led, kv) && x < |s.reqs| && s.reqs[x].cached == Start(|s.reqs[x].table|, c.B)
    ensures ChainOk(c, s.pool.pages, led, Cleared(s.reqs[x]), s.reqs[x].table)
  {
    hide KvComplete, Queues;
    var r := s.reqs[x];
    assert TableOk(c, s.pool.pages, led, s.reqs[x]);
    forall k: nat | k < |r.table|
      ensures ChainEntry(c, s.pool.pages, led, Cleared(r), r.table, k)
    {
      assert EntryOk(c, s.pool.pages, led, r, k);
      StartMono(k + 1, |r.table|, c.B);
      if k > 0 { assert r.table[..k][k - 1] == r.table[k - 1]; }
    }
  }

  lemma ChainFrame(c: Config, pages: seq<Page>, pages': seq<Page>, led: Ledger, r: Req, r': Req, t: seq<nat>)
    requires ChainOk(c, pages, led, r, t) && SameIdentities(pages, pages')
    requires r'.tokens == r.tokens && r'.table == r.table == []
    ensures ChainOk(c, pages', led, r', t)
  {
    forall k: nat | k < |t|
      ensures ChainEntry(c, pages', led, r', t, k)
    {
      assert ChainEntry(c, pages, led, r, t, k);
      assert pages'[t[k]].(refs := 0) == pages[t[k]].(refs := 0);
      if k > 0 {
        assert t[..k][k - 1] == t[k - 1];
        assert pages'[t[k - 1]].(refs := 0) == pages[t[k - 1]].(refs := 0);
      }
    }
  }

  lemma ChainDistinct(c: Config, pages: seq<Page>, led: Ledger, r: Req, t: seq<nat>)
    requires ChainOk(c, pages, led, r, t)
    ensures NoDup(t)
  {
    forall i, j | 0 <= i < j < |t|
      ensures t[i] != t[j]
    {
      assert ChainEntry(c, pages, led, r, t, j);
      assert t[i] in t[..j];
    }
  }

  /** A list of `n` different numbers below `n` names them all. */
  lemma NamesAll(t: seq<nat>, n: nat, b: nat) returns (i: nat)
    requires NoDup(t) && AllBelow(t, n) && |t| == n && b < n
    ensures i < |t| && t[i] == b
  {
    RangeCard(n);
    NoDupCard(t);
    if b !in t {
      SubsetCard(ToSet(t), Range(n) - {b});
    }
    i :| i < |t| && t[i] == b;
  }

  /** Whatever anybody finds in such a pool is that request's page for the same block. */
  lemma PlanInChain(c: Config, pool: Pool, led: Ledger, r: Req, t: seq<nat>, o: Req, ids: seq<nat>, k: nat)
    requires ChainOk(c, pool.pages, led, r, t) && r.table == [] && |t| == |pool.pages|
    requires PlanOk(c, pool, led, o, ids) && o.table == [] && k < |ids|
    ensures k < |t| && ids[k] == t[k]
    ensures Start(k + 1, c.B) <= |o.tokens| && Start(k + 1, c.B) <= |r.tokens|
    ensures o.tokens[..Start(k + 1, c.B)] == r.tokens[..Start(k + 1, c.B)]
  {
    hide Extends, BlockHash;
    assert PlanEntry(c, pool, led, o, ids, k);
    ChainDistinct(c, pool.pages, led, r, t);
    var i := NamesAll(t, |t|, ids[k]);
    assert ChainEntry(c, pool.pages, led, r, t, i);
    if k < i {
      StartMono(k + 1, i + 1, c.B);
    }
  }

  lemma SharedEntry(c: Config, pool: Pool, led: Ledger, r: Req, t: seq<nat>, o: Req, ids: seq<nat>, k: nat)
    requires ChainOk(c, pool.pages, led, r, t) && r.table == [] && |t| == |pool.pages| && Start(|t|, c.B) < |r.tokens|
    requires PlanOk(c, pool, led, o, ids) && o.table == [] && k < |ids|
    ensures PlanEntry(c, pool, led, r, ids, k)
  {
    PlanInChain(c, pool, led, r, t, o, ids, k);
    assert PlanEntry(c, pool, led, o, ids, k);
    CeilBounds(|r.tokens|, c.B);
    StartStrict(|t|, Ceil(|r.tokens|, c.B), c.B);
    BlockIsSlice(c, r, k);
    BlockIsSlice(c, o, k);
    var p := Start(k + 1, c.B);
    assert r.Block(k, c.B) == r.tokens[..p][Start(k, c.B)..] && o.Block(k, c.B) == o.tokens[..p][Start(k, c.B)..];
  }

  /** So nobody finds more than that request does. */
  lemma NobodyFindsMore(c: Config, s: Sys, led: Ledger, x: nat, t: seq<nat>, y: nat)
    requires World(c, s.pool, s.reqs, led) && x < |s.reqs| && y < |s.reqs|
    requires s.reqs[x].table == [] && s.reqs[y].table == [] && Settled(c, s.reqs[x]) && Settled(c, s.reqs[y])
    requires ChainOk(c, s.pool.pages, led, s.reqs[x], t) && |t| == |s.pool.pages|
             && Start(|t|, c.B) < |s.reqs[x].tokens|
    ensures MatchPrefix(c, s.pool, s.reqs[x]).Ok? && MatchPrefix(c, s.pool, s.reqs[y]).Ok?
    ensures |MatchPrefix(c, s.pool, s.reqs[y]).value| <= |MatchPrefix(c, s.pool, s.reqs[x]).value|
  {
    hide World, MatchPrefix, ChainOk;
    MatchPrefixSound(c, s.pool, s.reqs, led, y);
    var ids := MatchPrefix(c, s.pool, s.reqs[y]).value;
    forall k: nat | k < |ids|
      ensures PlanEntry(c, s.pool, led, s.reqs[x], ids, k)
    {
      SharedEntry(c, s.pool, led, s.reqs[x], t, s.reqs[y], ids, k);
    }
    MatchPrefixLongest(c, s.pool, s.reqs, led, x, ids);
  }

  /** What the request finds of its own pages, once it owns their hashes as far as they do not repeat: all of them up to
      the first whose hash comes again. */
  lemma FindsUpToRepeat(c: Config, s: Sys, led: Ledger, x: nat, r: Req)
    requires World(c, s.pool, s.reqs, led) && x < |s.reqs| && s.reqs[x].table == [] && Settled(c, s.reqs[x])
    requires r.tokens == s.reqs[x].tokens && |r.table| == |s.pool.pages| && Start(|r.table|, c.B) < |r.tokens|
    requires ChainOk(c, s.pool.pages, led, s.reqs[x], r.table) && OwnsLast(c, s.pool, r, |r.table|)
    ensures MatchPrefix(c, s.pool, s.reqs[x]).Ok?
    ensures |MatchPrefix(c, s.pool, s.reqs[x]).value| == FirstRepeat(c, r.tokens, |r.table|)
  {
    hide World, MatchPrefix, ChainOk, BlockHash, LastIn, PlanOk, PlanEntry;
    var t, n := r.table, |r.table|;
    var m := FirstRepeat(c, r.tokens, n);
    RepeatFromIs(c, r.tokens, n, 0);
    forall k: nat | k < m
      ensures BlockName(c, r.tokens, k) in s.pool.owner && s.pool.owner[BlockName(c, r.tokens, k)] == t[k]
    {
      assert LastIn(c, r.tokens, n, k);
      assert Owns(c, s.pool, r, k);
    }
    ChainToPlan(c, s.pool, s.reqs, led, x, t, m);
    MatchPrefixLongest(c, s.pool, s.reqs, led, x, t[..m]);
    MatchPrefixSound(c, s.pool, s.reqs, led, x);
    var ids := MatchPrefix(c, s.pool, s.reqs[x]).value;
    assert |ids| >= m by { assert t[..m] <= ids; }
    if |ids| > m {
      NotFound(c, s.pool, led, s.reqs[x], r, ids, m);
    }
  }

  /** A block whose hash comes again is not found. */
  lemma NotFound(c: Config, pool: Pool, led: Ledger, o: Req, r: Req, ids: seq<nat>, k: nat)
    requires PlanOk(c, pool, led, o, ids) && o.table == [] && o.tokens == r.tokens && k < |ids|
    requires ChainOk(c, pool.pages, led, o, r.table) && |r.table| == |pool.pages| && Start(|r.table|, c.B) < |r.tokens|
    requires OwnsLast(c, pool, r, |r.table|)
    ensures k < |r.table| && LastIn(c, r.tokens, |r.table|, k)
  {
    hide BlockHash, Extends;
    PlanInChain(c, pool, led, o, r.table, o, ids, k);
    assert PlanEntry(c, pool, led, o, ids, k);
    if !LastIn(c, r.tokens, |r.table|, k) {
      var j: nat := LastRepeat(c, r.tokens, |r.table|, k);
      assert Owns(c, pool, r, j);
      ChainDistinct(c, pool.pages, led, o, r.table);
    }
  }

  /** The last of the blocks with the hash of block `i`. */
  lemma LastRepeat(c: Config, tokens: seq<Token>, n: nat, i: nat) returns (j: nat)
    requires i < n
    ensures i <= j < n && LastIn(c, tokens, n, j) && BlockName(c, tokens, j) == BlockName(c, tokens, i)
    ensures !LastIn(c, tokens, n, i) ==> i < j
    decreases n - i
  {
    if LastIn(c, tokens, n, i) {
      j := i;
    } else {
      var k: nat :| i < k < n && BlockName(c, tokens, k) == BlockName(c, tokens, i);
      j := LastRepeat(c, tokens, n, k);
    }
  }

  // ---------------------------------------------------------------- it ranks first

  lemma {:induction false} MatchedHits(c: Config, s: Sys, ids: seq<nat>, y: nat)
    requires MatchWaiting(c, s, ids).Ok? && y in ids
    ensures var prefixes := MatchWaiting(c, s, ids).value;
            y in prefixes && MatchPrefix(c, s.pool, s.Get(y)) == Ok(prefixes[y])
    decreases |ids|
  {
    hide MatchPrefix;
    if y != ids[0] {
      MatchedHits(c, s, ids[1..], y);
    }
  }

  /** Who has most hits and comes first stays first. */
  lemma FrontStays(hits: nat -> nat, ids: seq<nat>)
    requires ids != [] && forall k :: 0 <= k < |ids| ==> hits(ids[k]) <= hits(ids[0])
    ensures SortBy(hits, ids) != [] && SortBy(hits, ids)[0] == ids[0]
  {
    var rest := SortBy(hits, ids[1..]);
    SortStable(hits, ids[1..]);
    if rest != [] {
      assert rest[0] in multiset(rest) && rest[0] in multiset(ids[1..]);
    }
  }

  /** Everybody waits; the first of them has had all the pages, and they are free but still cached. */
  ghost predicate Emptied(c: Config, s: Sys, led: Ledger, kv: Memory, x: nat, t: seq<nat>) {
    && AtRest(c, s, led, kv) && DecodeFits(c, s) && s.running == [] && s.chunked.None?
    && s.waiting != [] && s.waiting[0] == x && x < |s.reqs| && Idle(s.reqs[x]) && s.reqs[x].newToks == 0
    && |s.pool.free| == c.numBlocks && c.maxSeqs > 0 && c.maxBatch > 0
    && |t| == c.numBlocks && Start(c.numBlocks, c.B) < |s.reqs[x].tokens|
    && ChainOk(c, s.pool.pages, led, s.reqs[x], t)
  }

  lemma DropEmpties(c: Config, s: Sys, led: Ledger, kv: Memory, x: nat)
    requires Nearly(c, s, led, kv) && !Keeps(c, s) && x == s.running[0] && c.maxBatch > 0
    ensures PreemptTail(c, s).Ok? && x < |s.reqs|
    ensures var s0 := AfterPreemption(c, s);
            && Emptied(c, s0, led, kv, x, s.reqs[x].table) && x < |s0.reqs| && SameRequest(s.reqs[x], s0.reqs[x])
            && s0.pool.owner == s.pool.owner
  {
    hide Nearly, AtRest, DecodeFits, PreemptTail, ChainOk, Keeps;
    DropFills(c, s, led, kv, x);
    DropLeaves(c, s, led, kv, x);
    FullChain(c, s, led, kv, x);
    ChainFrame(c, s.pool.pages, AfterPreemption(c, s).pool.pages, led, Cleared(s.reqs[x]),
               AfterPreemption(c, s).reqs[x], s.reqs[x].table);
  }

  /** Nobody who waits finds more. */
  lemma MostHits(c: Config, s: Sys, led: Ledger, kv: Memory, x: nat, t: seq<nat>, y: nat)
    requires Emptied(c, s, led, kv, x, t) && y in s.waiting
    ensures MatchPrefix(c, s.pool, s.Get(x)).Ok? && MatchPrefix(c, s.pool, s.Get(y)).Ok?
    ensures |MatchPrefix(c, s.pool, s.Get(y)).value| <= |MatchPrefix(c, s.pool, s.Get(x)).value|
  {
    hide Quiescent, MatchPrefix, ChainOk;
    assert x in s.waiting;
    WaitingIdle(c, s, led, kv, x);
    WaitingIdle(c, s, led, kv, y);
    RestWorld(c, s, led, kv);
    NobodyFindsMore(c, s, led, x, t, y);
  }

  lemma RanksFirst(c: Config, s: Sys, led: Ledger, kv: Memory, x: nat, t: seq<nat>)
    requires Emptied(c, s, led, kv, x, t)
    ensures MatchPrefix(c, s.pool, s.Get(x)).Ok?
    ensures FirstWaits(c, s, led, kv, x, MatchPrefix(c, s.pool, s.Get(x)).value)
  {
    hide Nearly, DecodeFits, MatchPrefix, ChainOk, MatchWaiting;
    MostHits(c, s, led, kv, x, t, x);
    RestIsSteppable(c, s, led, kv);
    RankedWaitingOk(c, s, led, kv, NoChunk(c, s));
    var prefixes := MatchWaiting(c, s, s.waiting).value;
    forall k | 0 <= k < |s.waiting|
      ensures HitsOf(prefixes)(s.waiting[k]) <= HitsOf(prefixes)(x)
    {
      MatchedHits(c, s, s.waiting, s.waiting[k]);
      MatchedHits(c, s, s.waiting, x);
      MostHits(c, s, led, kv, x, t, s.waiting[k]);
    }
    MatchedHits(c, s, s.waiting, x);
    FrontStays(HitsOf(prefixes), s.waiting);
  }

  // ---------------------------------------------------------------- what the step does with it

  /** So many tokens of it are found again. */
  function Found(c: Config, s: Sys, x: nat): nat {
    var ids := MatchPrefix(c, s.pool, s.Get(x));
    if ids.Ok? then Start(|ids.value|, c.B) else 0
  }

  lemma EmptiedFits(c: Config, s: Sys, led: Ledger, kv: Memory, x: nat, t: seq<nat>)
    requires Emptied(c, s, led, kv, x, t)
    ensures MatchPrefix(c, s.pool, s.Get(x)).Ok?
    ensures var ids := MatchPrefix(c, s.pool, s.Get(x)).value;
            && PlanOk(c, s.pool, led, s.Get(x), ids) && |ids| <= c.numBlocks
            && (Taken(c, s, x, ids) <==> c.chunked && Start(|ids|, c.B) + c.maxBatch <= Start(c.numBlocks, c.B))
            && (Taken(c, s, x, ids) ==> Portion(c, s, x, ids) == c.maxBatch && Alone(c, s, x, ids))
  {
    hide AtRest, Nearly, DecodeFits, MatchPrefix, ChainOk, PlanOk, FirstPlan;
    RanksFirst(c, s, led, kv, x, t);
    var ids := MatchPrefix(c, s.pool, s.Get(x)).value;
    FirstReady(c, s, led, kv, x, ids);
    assert SumAppend(c, s.reqs, s.running) == 0;
    AllCachedFree(c, s, led, kv, x, t, ids);
    var n := Portion(c, s, x, ids);
    var room := c.numBlocks - |ids|;
    StartAdd(|ids|, room, c.B);
    CeilBounds(n, c.B);
    if Ceil(n, c.B) <= room {
      StartMono(Ceil(n, c.B), room, c.B);
    } else {
      StartMono(room, Ceil(n, c.B) - 1, c.B);
    }
  }

  /** Everything found is free. */
  lemma AllCachedFree(c: Config, s: Sys, led: Ledger, kv: Memory, x: nat, t: seq<nat>, ids: seq<nat>)
    requires Emptied(c, s, led, kv, x, t) && PlanOk(c, s.pool, led, s.reqs[x], ids)
    ensures |FreeAmong(s.pool, ids)| == |ids| <= c.numBlocks
  {
    hide AtRest, Nearly, ChainOk, World, DecodeFits;
    RestIsSteppable(c, s, led, kv);
    RestWorld(c, s, led, kv);
    PlanDistinct(c, s.pool, led, s.reqs[x], ids);
    NoDupCard(ids);
    forall k | 0 <= k < |ids|
      ensures ids[k] in s.pool.free
    {
      assert PlanEntry(c, s.pool, led, s.reqs[x], ids, k);
      FreeIsAll(c, s, led, kv, ids[k]);
    }
    assert FreeAmong(s.pool, ids) == ToSet(ids);
    PoolInvariant(c, s, led, kv);
    NoDupCard(s.pool.free);
    SubsetCard(FreeAmong(s.pool, ids), ToSet(s.pool.free));
  }

  lemma FreeIsAll(c: Config, s: Sys, led: Ledger, kv: Memory, b: nat)
    requires AtRest(c, s, led, kv) && |s.pool.free| == c.numBlocks && b < |s.pool.pages|
    ensures b in s.pool.free
  {
    hide KvComplete, Queues;
    PoolInvariant(c, s, led, kv);
    var i := NamesAll(s.pool.free, c.numBlocks, b);
  }

  /** The step either admits that part of the request which fills its budget, in pages of which it owns the hashes, or
      raises. */
  lemma DropDecides(c: Config, s: Sys, led: Ledger, kv: Memory, x: nat, t: seq<nat>) returns (led': Ledger)
    requires Emptied(c, s, led, kv, x, t)
    ensures PreemptTail(c, s) == Ok(s)
    ensures Schedule(c, s).Ok? <==> c.chunked && Found(c, s, x) + c.maxBatch <= Start(c.numBlocks, c.B)
    ensures Schedule(c, s).Ok? ==>
              && Scheduled(c, s, Schedule(c, s).value, led', kv)
              && PartScheduled(c, s, Schedule(c, s).value, x, Found(c, s, x) + c.maxBatch)
  {
    hide AtRest, Nearly, DecodeFits, MatchPrefix, ChainOk, PlanOk, FirstWaits, Taken, Alone, Portion, Schedule,
         Scheduled,
         Admit, OwnsLast;
    RanksFirst(c, s, led, kv, x, t);
    EmptiedFits(c, s, led, kv, x, t);
    var ids := MatchPrefix(c, s.pool, s.Get(x)).value;
    led' := FirstBatch(c, s, led, kv, x, ids);
    if Taken(c, s, x, ids) {
      RestIsSteppable(c, s, led, kv);
      ConsistentAt(c, s, led, kv);
      AdmitOwns(c, s, led, kv, x, ids, c.maxBatch);
      assert [x] + s.running == [x];
    }
  }

  // ---------------------------------------------------------------- the step from a drop

  lemma NoBudget(c: Config, s: Sys, led: Ledger, kv: Memory)
    requires AtRest(c, s, led, kv) && DecodeFits(c, s) && s.running == [] && s.chunked.None? && c.maxBatch == 0
    ensures ScheduleFrom(c, s).Err?
  {
    hide Quiescent;
    assert SumAppend(c, s.reqs, s.running) == 0;
    FrozenEnd(c, s, map[], [], 0, |s.pool.free|, {}, s.Live(), []);
    CommitEnd(c, s, [], 0, 0, s.Live(), []);
    assert Ids([]) == [];
  }

  lemma DropRests(c: Config, s: Sys, led: Ledger, kv: Memory)
    requires Nearly(c, s, led, kv) && !Keeps(c, s)
    ensures Steppable(c, s, led, kv) && s.running != []
    ensures PreemptTail(c, s).Ok? && Schedule(c, s) == ScheduleFrom(c, AfterPreemption(c, s))
    ensures var s0 := AfterPreemption(c, s);
            AtRest(c, s0, led, kv) && DecodeFits(c, s0) && s0.running == [] && s0.chunked.None?
  {
    hide Nearly, AtRest, DecodeFits, PreemptTail, ScheduleFrom;
    DropSteppable(c, s, led, kv);
    PreemptionKeepsRequests(c, s, led, kv);
  }

  /** When preemption throws out everybody, the step decides by what the first request finds again: it raises, or one
      request is left in the pool, `maxBatch` tokens further. */
  lemma DropNext(net: Net, c: Config, e: Engine, led: Ledger, kv: Memory, x: nat) returns (led': Ledger, kv': Memory)
    requires Nearly(c, e.sys, led, kv) && !Keeps(c, e.sys) && x == e.sys.running[0] && Holds(net, e.mems, kv)
    ensures var k := Found(c, AfterPreemption(c, e.sys), x) + c.maxBatch;
            && (Step(net, c, e).Ok? <==> c.chunked && c.maxBatch > 0 && k <= Start(c.numBlocks, c.B))
            && (Step(net, c, e).Ok? ==>
                  var e' := Step(net, c, e).value;
                  && Filling(c, e'.sys, led', kv', x, k) && Holds(net, e'.mems, kv')
                  && SameTask(e.sys.Get(x), e'.sys.Get(x)))
    ensures LedgerExtends(led, led')
  {
    hide Nearly, AtRest, Keeps, DecodeFits, PreemptTail, ScheduleFrom, Steppable, Emptied, Found, PartScheduled, Step,
         Holds,
         Filling;
    led', kv' := led, kv;
    var s0 := AfterPreemption(c, e.sys);
    DropRests(c, e.sys, led, kv);
    if c.maxBatch == 0 {
      NoBudget(c, s0, led, kv);
      var led1, kv1, ts := StepOk(net, c, e, led, kv);
    } else {
      DropEmpties(c, e.sys, led, kv, x);
      var led0 := DropDecides(c, s0, led, kv, x, e.sys.reqs[x].table);
      assert Schedule(c, s0) == Schedule(c, e.sys);
      if Schedule(c, e.sys).Ok? {
        led', kv' := PartStep(net, c, e, Schedule(c, e.sys).value, led, kv, x, Found(c, s0, x) + c.maxBatch);
      } else {
        var led1, kv1, ts := StepOk(net, c, e, led, kv);
      }
    }
  }

  // ---------------------------------------------------------------- the next drop of the same request

  /** A request that has filled the pool and runs is thrown out. */
  lemma FullIsDropped(c: Config, s: Sys, led: Ledger, kv: Memory, x: nat)
    requires Filling(c, s, led, kv, x, Start(c.numBlocks, c.B)) && s.chunked.None?
    ensures !Keeps(c, s) && s.running == [x] && |s.reqs[x].table| == c.numBlocks
  {
    hide World, KvComplete, OwnsLast, Preempt;
    forall y: nat | y < |s.reqs| && s.reqs[y].status == Running
      ensures Some(x) == Some(y)
    {
      assert Placed(s, y);
    }
    RestFree(c, s, led, kv, Some(x));
    assert Placed(s, x);
    assert Aligned(c, s.pool.pages, s.reqs[x]);
    assert s.running[1..] == [];
    assert SumAppend(c, s.reqs, s.running) == NumBlocksToAppend(c, s.reqs[x], 1) + SumAppend(c, s.reqs, []);
    CeilUnique(Start(c.numBlocks, c.B), c.B, c.numBlocks);
    CeilUnique(Start(c.numBlocks, c.B) + 1, c.B, c.numBlocks + 1);
    var k := PreemptTailLongest(c, s, led, kv);
    assert PreemptTo(c, s, 1) == Ok(s);
  }

  /** From its second drop on it finds all its pages up to the first whose hash comes again. */
  lemma NextFound(c: Config, s: Sys, led: Ledger, kv: Memory, x: nat)
    requires Filling(c, s, led, kv, x, Start(c.numBlocks, c.B)) && s.chunked.None?
    ensures !Keeps(c, s) && s.running == [x]
    ensures Found(c, AfterPreemption(c, s), x) == Start(FirstRepeat(c, s.reqs[x].tokens, c.numBlocks), c.B)
  {
    hide Nearly, AtRest, Keeps, DecodeFits, PreemptTail, MatchPrefix, OwnsLast, ChainOk;
    FullIsDropped(c, s, led, kv, x);
    DropEmpties(c, s, led, kv, x);
    var s0 := AfterPreemption(c, s);
    OwnerFrame(c, s.pool, s0.pool, s.reqs[x], Full(c, s.reqs[x]));
    DivUnique(Start(c.numBlocks, c.B), c.B, c.numBlocks);
    EmptiedWorld(c, s0, led, kv, x, s.reqs[x].table);
    FindsUpToRepeat(c, s0, led, x, s.reqs[x]);
  }

  lemma EmptiedWorld(c: Config, s: Sys, led: Ledger, kv: Memory, x: nat, t: seq<nat>)
    requires Emptied(c, s, led, kv, x, t)
    ensures World(c, s.pool, s.reqs, led) && s.reqs[x].table == [] && Settled(c, s.reqs[x])
    ensures |s.pool.pages| == |t|
  {
    hide Quiescent, ChainOk;
    assert x in s.waiting;
    WaitingIdle(c, s, led, kv, x);
    RestWorld(c, s, led, kv);
  }
}
