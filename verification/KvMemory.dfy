/** The KV memory, seen as which token prefix each slot holds the keys and values of. */
module KvMemory {
  import opened Arith
  import opened Requests
  import opened Pages
  import opened CacheInvariant

  /** A slot's content is named by the prefix that ends in its token; [] for a slot never written. */
  type Memory = seq<seq<Token>>

  function Slot(c: Config, b: nat, o: nat): nat {
    Start(b, c.B) + o
  }

  lemma SlotBelow(c: Config, b: nat, o: nat, n: nat)
    requires b < n && o < c.B
    ensures Slot(c, b, o) < Start(n, c.B)
  {
    StartMono(b + 1, n, c.B);
  }

  lemma SlotInjective(c: Config, b: nat, o: nat, b': nat, o': nat)
    requires o < c.B && o' < c.B
    ensures Slot(c, b, o) == Slot(c, b', o') ==> b == b' && o == o'
  {
    if Slot(c, b, o) == Slot(c, b', o') {
      StartUnique(b, b', Slot(c, b, o), c.B);
    }
  }

  /** The request computes position offset `o` of page `b` in the current step. */
  ghost predicate Writes(c: Config, r: Req, b: nat, o: nat) {
    exists i: nat :: i < |r.table| && r.table[i] == b && r.cached <= Start(i, c.B) + o < r.Context()
  }

  ghost predicate Pending(c: Config, reqs: seq<Req>, b: nat, o: nat) {
    exists id: nat :: id < |reqs| && Writes(c, reqs[id], b, o)
  }

  /** What offset `o` of a published page must hold: the prefix of its lineage that ends there. */
  ghost function Expected(c: Config, led: Ledger, p: Page, o: nat): seq<Token>
    requires o < c.B
  {
    var h := Hist(led, p.lin);
    if |h| < c.B then [] else h[..|h| - c.B + o + 1]
  }

  ghost predicate SlotRight(c: Config, led: Ledger, kv: Memory, p: Page, b: nat, o: nat)
    requires o < c.B && Slot(c, b, o) < |kv|
  {
    kv[Slot(c, b, o)] == Expected(c, led, p, o)
  }

  /** Every slot of a published page holds its prefix, or the current step will write it. */
  ghost predicate PageReady(c: Config, pool: Pool, reqs: seq<Req>, led: Ledger, kv: Memory, b: nat)
    requires b < |pool.pages|
  {
    pool.pages[b].Published() ==>
      forall o: nat {:trigger Slot(c, b, o)} :: o < c.B && Slot(c, b, o) < |kv| ==>
        SlotRight(c, led, kv, pool.pages[b], b, o) || Pending(c, reqs, b, o)
  }

  /** The cached tokens on a partial page are in memory. */
  ghost predicate EntryReady(c: Config, pages: seq<Page>, kv: Memory, r: Req, n: nat, i: nat)
    requires i < |r.table| && AllBelow(r.table, |pages|) && n <= |r.tokens|
  {
    !pages[r.table[i]].Published() ==>
      forall o: nat {:trigger Slot(c, r.table[i], o)} ::
        o < c.B && Start(i, c.B) + o < n && Slot(c, r.table[i], o) < |kv| ==>
        kv[Slot(c, r.table[i], o)] == r.tokens[..Start(i, c.B) + o + 1]
  }

  ghost predicate TableReady(c: Config, pages: seq<Page>, kv: Memory, r: Req, n: nat) {
    && AllBelow(r.table, |pages|) && n <= |r.tokens|
    && forall i: nat {:trigger EntryReady(c, pages, kv, r, n, i)} :: i < |r.table| ==> EntryReady(c, pages, kv, r, n, i)
  }

  /** During a step: everything cached is in memory, except what this very step computes. */
  ghost predicate KvPending(c: Config, pool: Pool, reqs: seq<Req>, led: Ledger, kv: Memory) {
    && |kv| == Start(|pool.pages|, c.B)
    && (forall b: nat {:trigger PageReady(c, pool, reqs, led, kv, b)} ::
         b < |pool.pages| ==> PageReady(c, pool, reqs, led, kv, b))
    && (forall id: nat {:trigger TableReady(c, pool.pages, kv, reqs[id], reqs[id].cached)} :: id < |reqs| ==>
          TableReady(c, pool.pages, kv, reqs[id], reqs[id].cached))
  }

  lemma PendingMono(c: Config, reqs: seq<Req>, id: nat, r: Req, b: nat, o: nat)
    requires id < |reqs| && reqs[id].table <= r.table && r.cached == reqs[id].cached
             && r.Context() >= reqs[id].Context()
    requires Pending(c, reqs, b, o)
    ensures Pending(c, reqs[id := r], b, o)
  {
    var x: nat :| x < |reqs| && Writes(c, reqs[x], b, o);
    var i: nat :| i < |reqs[x].table| && reqs[x].table[i] == b
        && reqs[x].cached <= Start(i, c.B) + o < reqs[x].Context();
    if x == id {
      assert r.table[i] == b;
    }
    assert Writes(c, reqs[id := r][x], b, o);
  }

  /** Growing one request's table or context hides no page content from anyone. */
  lemma PageReadyMono(c: Config, pool: Pool, reqs: seq<Req>, led: Ledger, kv: Memory, id: nat, r: Req, b: nat)
    requires id < |reqs| && reqs[id].table <= r.table && r.cached == reqs[id].cached
             && r.Context() >= reqs[id].Context()
    requires b < |pool.pages| && PageReady(c, pool, reqs, led, kv, b)
    ensures PageReady(c, pool, reqs[id := r], led, kv, b)
  {
    if pool.pages[b].Published() {
      forall o: nat | o < c.B && Slot(c, b, o) < |kv|
        ensures SlotRight(c, led, kv, pool.pages[b], b, o) || Pending(c, reqs[id := r], b, o)
      {
        if Pending(c, reqs, b, o) {
          PendingMono(c, reqs, id, r, b, o);
        }
      }
    }
  }

  lemma TakeKv(c: Config, pool: Pool, reqs: seq<Req>, led: Ledger, kv: Memory, id: nat)
    requires World(c, pool, reqs, led) && TakeReady(c, pool, reqs, id) && KvPending(c, pool, reqs, led, kv)
    ensures TakeFront(pool).Ok?
    ensures var (pool', b) := TakeFront(pool).value;
            KvPending(c, pool', reqs[id := reqs[id].(table := reqs[id].table + [b])], led, kv)
  {
    TakePool(c, pool, reqs, led, id);
    var (pool', b) := TakeFront(pool).value;
    var r := reqs[id];
    var r' := r.(table := r.table + [b]);
    var reqs' := reqs[id := r'];
    forall x: nat | x < |pool'.pages|
      ensures PageReady(c, pool', reqs', led, kv, x)
    {
      assert PageReady(c, pool, reqs, led, kv, x);
      PageReadyMono(c, pool, reqs, led, kv, id, r', x);
    }
    forall x: nat | x < |reqs'|
      ensures TableReady(c, pool'.pages, kv, reqs'[x], reqs'[x].cached)
    {
      assert TableReady(c, pool.pages, kv, reqs[x], reqs[x].cached);
      forall i: nat | i < |reqs'[x].table|
        ensures EntryReady(c, pool'.pages, kv, reqs'[x], reqs'[x].cached, i)
      {
        if i < |reqs[x].table| {
          assert EntryReady(c, pool.pages, kv, reqs[x], reqs[x].cached, i);
        }
      }
    }
  }

  /** More of the request's own tokens are scheduled. */
  lemma ScheduleKv(c: Config, pool: Pool, reqs: seq<Req>, led: Ledger, kv: Memory, id: nat, n: nat)
    requires KvPending(c, pool, reqs, led, kv) && id < |reqs| && n >= reqs[id].newToks
    ensures KvPending(c, pool, reqs[id := reqs[id].(newToks := n)], led, kv)
  {
    var r' := reqs[id].(newToks := n);
    var reqs' := reqs[id := r'];
    forall x: nat | x < |pool.pages|
      ensures PageReady(c, pool, reqs', led, kv, x)
    {
      PageReadyMono(c, pool, reqs, led, kv, id, r', x);
    }
    forall x: nat | x < |reqs'|
      ensures TableReady(c, pool.pages, kv, reqs'[x], reqs'[x].cached)
    {
      assert TableReady(c, pool.pages, kv, reqs[x], reqs[x].cached);
      forall i: nat | i < |reqs'[x].table|
        ensures EntryReady(c, pool.pages, kv, reqs'[x], reqs'[x].cached, i)
      {
        assert EntryReady(c, pool.pages, kv, reqs[x], reqs[x].cached, i);
      }
    }
  }

  lemma PublishedSlot(c: Config, led: Ledger, kv: Memory, pages: seq<Page>, reqs: seq<Req>, id: nat, i: nat, p: Page,
                      o: nat)
    requires id < |reqs| && i < |reqs[id].table| && AllBelow(reqs[id].table, |pages|)
    requires reqs[id].cached <= |reqs[id].tokens| && Start(i + 1, c.B) <= |reqs[id].tokens|
    requires Hist(led, p.lin) == reqs[id].tokens[..Start(i + 1, c.B)]
    requires !pages[reqs[id].table[i]].Published()
    requires EntryReady(c, pages, kv, reqs[id], reqs[id].cached, i)
    requires Start(i + 1, c.B) <= reqs[id].Context()
    requires o < c.B && Slot(c, reqs[id].table[i], o) < |kv|
    ensures SlotRight(c, led, kv, p, reqs[id].table[i], o) || Pending(c, reqs, reqs[id].table[i], o)
  {
    var r := reqs[id];
    assert Expected(c, led, p, o) == r.tokens[..Start(i, c.B) + o + 1];
    if Start(i, c.B) + o >= r.cached {
      assert Writes(c, reqs[id], r.table[i], o);
    }
  }

  /** The page being published: what is not yet in memory is computed by its owner in this step. */
  lemma PublishedReady(c: Config, pool: Pool, reqs: seq<Req>, led: Ledger, kv: Memory, id: nat, i: nat)
    requires World(c, pool, reqs, led) && PublishReady(c, pool, reqs, id, i)
    requires TableReady(c, pool.pages, kv, reqs[id], reqs[id].cached)
    requires Start(i + 1, c.B) <= reqs[id].Context()
    ensures PageReady(c, PublishEntry(c, pool, reqs[id], i), reqs, PublishLedger(c, pool, led, reqs[id], i), kv,
                      reqs[id].table[i])
  {
    var b := reqs[id].table[i];
    var led' := PublishLedger(c, pool, led, reqs[id], i);
    var p := PublishEntry(c, pool, reqs[id], i).pages[b];
    assert EntryReady(c, pool.pages, kv, reqs[id], reqs[id].cached, i);
    forall o: nat | o < c.B && Slot(c, b, o) < |kv|
      ensures SlotRight(c, led', kv, p, b, o) || Pending(c, reqs, b, o)
    {
      PublishedSlot(c, led', kv, pool.pages, reqs, id, i, p, o);
    }
  }

  lemma PublishKv(c: Config, pool: Pool, reqs: seq<Req>, led: Ledger, kv: Memory, id: nat, i: nat)
    requires World(c, pool, reqs, led) && PublishReady(c, pool, reqs, id, i) && KvPending(c, pool, reqs, led, kv)
    requires Start(i + 1, c.B) <= reqs[id].Context()
    ensures KvPending(c, PublishEntry(c, pool, reqs[id], i), reqs, PublishLedger(c, pool, led, reqs[id], i), kv)
  {
    var b := reqs[id].table[i];
    var pool' := PublishEntry(c, pool, reqs[id], i);
    var led' := PublishLedger(c, pool, led, reqs[id], i);
    PublishMeaning(c, pool, reqs, led, id, i);
    forall x: nat | x < |pool'.pages|
      ensures PageReady(c, pool', reqs, led', kv, x)
    {
      if x == b {
        assert TableReady(c, pool.pages, kv, reqs[id], reqs[id].cached);
        PublishedReady(c, pool, reqs, led, kv, id, i);
      } else {
        assert PageReady(c, pool, reqs, led, kv, x);
        assert PageOk(c, led, pool.pages[x]);
        forall o: nat | pool.pages[x].Published() && o < c.B && Slot(c, x, o) < |kv|
          ensures SlotRight(c, led', kv, pool.pages[x], x, o) || Pending(c, reqs, x, o)
        {
          assert Expected(c, led', pool.pages[x], o) == Expected(c, led, pool.pages[x], o);
        }
      }
    }
    forall x: nat | x < |reqs|
      ensures TableReady(c, pool'.pages, kv, reqs[x], reqs[x].cached)
    {
      assert TableReady(c, pool.pages, kv, reqs[x], reqs[x].cached);
      forall j: nat | j < |reqs[x].table|
        ensures EntryReady(c, pool'.pages, kv, reqs[x], reqs[x].cached, j)
      {
        assert EntryReady(c, pool.pages, kv, reqs[x], reqs[x].cached, j);
      }
    }
  }

  lemma ClaimPageReady(c: Config, pool: Pool, pool': Pool, reqs: seq<Req>, led: Ledger, kv: Memory, id: nat, r: Req,
                       x: nat)
    requires id < |reqs| && reqs[id].newToks == 0 && SamePage(pool, pool', x) && PageReady(c, pool, reqs, led, kv, x)
    ensures PageReady(c, pool', reqs[id := r], led, kv, x)
  {
    forall o: nat | pool.pages[x].Published() && o < c.B && Slot(c, x, o) < |kv|
      ensures SlotRight(c, led, kv, pool'.pages[x], x, o) || Pending(c, reqs[id := r], x, o)
    {
      if Pending(c, reqs, x, o) {
        var y: nat :| y < |reqs| && Writes(c, reqs[y], x, o);
        assert Writes(c, reqs[id := r][y], x, o);
      }
    }
  }

  ghost predicate SamePage(pool: Pool, pool': Pool, x: nat) {
    x < |pool.pages| && x < |pool'.pages| && pool'.pages[x].(refs := 0) == pool.pages[x].(refs := 0)
  }

  /** A table whose pages are all published has no partial page to worry about. */
  lemma SettledTableReady(c: Config, pool: Pool, kv: Memory, reqs: seq<Req>, led: Ledger, id: nat)
    requires TablesOk(c, pool, led, reqs) && id < |reqs| && reqs[id].cached >= Start(|reqs[id].table|, c.B)
    ensures TableReady(c, pool.pages, kv, reqs[id], reqs[id].cached)
  {
    assert TableOk(c, pool.pages, led, reqs[id]);
    forall i: nat | i < |reqs[id].table|
      ensures EntryReady(c, pool.pages, kv, reqs[id], reqs[id].cached, i)
    {
      assert EntryOk(c, pool.pages, led, reqs[id], i);
      StartMono(i + 1, |reqs[id].table|, c.B);
    }
  }

  lemma RefsOnlyReady(c: Config, pool: Pool, pool': Pool, kv: Memory, r: Req, n: nat)
    requires SameIdentities(pool.pages, pool'.pages) && TableReady(c, pool.pages, kv, r, n)
    ensures TableReady(c, pool'.pages, kv, r, n)
  {
    forall i: nat | i < |r.table|
      ensures EntryReady(c, pool'.pages, kv, r, n, i)
    {
      assert EntryReady(c, pool.pages, kv, r, n, i);
      assert pool'.pages[r.table[i]].(refs := 0) == pool.pages[r.table[i]].(refs := 0);
    }
  }

  lemma ClaimKv(c: Config, pool: Pool, reqs: seq<Req>, led: Ledger, kv: Memory, id: nat, b: nat)
    requires World(c, pool, reqs, led) && id < |reqs| && ClaimReady(c, pool, led, reqs[id], b)
    requires KvPending(c, pool, reqs, led, kv)
    ensures KvPending(c, ClaimPage(pool, b), reqs[id := Claimed(c, reqs[id], b)], led, kv)
  {
    var pool' := ClaimPage(pool, b);
    var r' := Claimed(c, reqs[id], b);
    var reqs' := reqs[id := r'];
    ClaimPool(c, pool, reqs, led, b);
    ClaimWorld(c, pool, reqs, led, id, b);
    forall x: nat | x < |pool'.pages|
      ensures PageReady(c, pool', reqs', led, kv, x)
    {
      assert PageReady(c, pool, reqs, led, kv, x);
      ClaimPageReady(c, pool, pool', reqs, led, kv, id, r', x);
    }
    forall x: nat | x < |reqs'|
      ensures TableReady(c, pool'.pages, kv, reqs'[x], reqs'[x].cached)
    {
      assert TableReady(c, pool.pages, kv, reqs[x], reqs[x].cached);
      if x == id {
        SettledTableReady(c, pool', kv, reqs', led, id);
      } else {
        RefsOnlyReady(c, pool, pool', kv, reqs[x], reqs[x].cached);
      }
    }
  }
}
