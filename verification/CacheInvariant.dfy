/** What holds of the page pool and every request's table, whatever the hash function does. */
module CacheInvariant {
  import opened Arith
  import opened Seqs
  import opened Requests
  import opened Pages

  /** Every lineage ever published, with the whole token prefix it stands for. */
  type Ledger = map<Lineage, seq<Token>>

  ghost function Hist(led: Ledger, lin: Lineage): seq<Token> {
    if lin in led then led[lin] else []
  }

  ghost predicate LedgerExtends(led: Ledger, led': Ledger) {
    forall k :: k in led ==> k in led' && led'[k] == led[k]
  }

  lemma LedgerTrans(a: Ledger, b: Ledger, d: Ledger)
    requires LedgerExtends(a, b) && LedgerExtends(b, d)
    ensures LedgerExtends(a, d)
  {
  }

  /** A published page carries the block its lineage stands for, under the history of its parent. */
  ghost predicate PageOk(c: Config, led: Ledger, p: Page) {
    && p.refs >= 0
    && (p.Published() ==>
          && p.hash >= 0
          && |p.tokens| == c.B
          && p.lin in led
          && (p.parent == ROOT || p.parent in led)
          && led[p.lin] == Hist(led, p.parent) + p.tokens
          && p.hash == ChainHash(c, led[p.lin]))
  }

  /** A lineage names a real page, and no generation still open for publication is in the ledger. */
  ghost predicate KeyOk(pages: seq<Page>, k: Lineage) {
    && 0 <= k.block < |pages|
    && 0 <= k.gen <= pages[k.block].gen
    && (!pages[k.block].Published() ==> k.gen < pages[k.block].gen)
  }

  ghost predicate OwnerOk(pool: Pool, h: int) {
    && h in pool.owner
    && h >= 0
    && pool.owner[h] < |pool.pages|
    && pool.pages[pool.owner[h]].hash == h
  }

  /** The requests whose table holds page `b`. */
  ghost function Users(reqs: seq<Req>, b: nat): set<nat> {
    set id: nat | id < |reqs| && b in reqs[id].table
  }

  /** The reference count is the number of live tables holding the page; it decides free or used. */
  ghost predicate RefOk(pool: Pool, reqs: seq<Req>, b: nat)
    requires b < |pool.pages|
  {
    && pool.pages[b].refs == |Users(reqs, b)|
    && (b in pool.used <==> pool.pages[b].refs > 0)
    && (b in pool.free <==> pool.pages[b].refs == 0)
  }

  ghost predicate PoolOk(pool: Pool) {
    && NoDup(pool.free)
    && AllBelow(pool.free, |pool.pages|)
    && (forall b :: b in pool.used ==> b < |pool.pages|)
    && (forall h {:trigger OwnerOk(pool, h)} :: h in pool.owner ==> OwnerOk(pool, h))
  }

  /** Entry `i`: if published, it stands for exactly the first `i + 1` blocks of this request. */
  ghost predicate EntryOk(c: Config, pages: seq<Page>, led: Ledger, r: Req, i: nat)
    requires i < |r.table| && AllBelow(r.table, |pages|)
  {
    var p := pages[r.table[i]];
    && (p.Published() ==>
          && Start(i + 1, c.B) <= |r.tokens|
          && Hist(led, p.lin) == r.tokens[..Start(i + 1, c.B)]
          && (i == 0 ==> p.parent == ROOT)
          && (i > 0 ==> pages[r.table[i - 1]].Published() && p.parent == pages[r.table[i - 1]].lin))
    && (Start(i + 1, c.B) <= r.cached ==> p.Published())
  }

  ghost predicate TableOk(c: Config, pages: seq<Page>, led: Ledger, r: Req) {
    && NoDup(r.table)
    && AllBelow(r.table, |pages|)
    && r.Context() <= |r.tokens|
    && (forall i: nat {:trigger EntryOk(c, pages, led, r, i)} :: i < |r.table| ==> EntryOk(c, pages, led, r, i))
  }

  /** Two requests share a page only if at least one of them has it completely cached. */
  ghost predicate Share(c: Config, r: Req, o: Req) {
    forall i: nat, j: nat :: i < |r.table| && j < |o.table| && r.table[i] == o.table[j]
      ==> Start(i + 1, c.B) <= r.cached || Start(j + 1, c.B) <= o.cached
  }

  ghost predicate PagesOk(c: Config, pool: Pool, led: Ledger) {
    forall b: nat {:trigger PageOk(c, led, pool.pages[b])} :: b < |pool.pages| ==> PageOk(c, led, pool.pages[b])
  }

  ghost predicate KeysOk(pool: Pool, led: Ledger) {
    forall k {:trigger KeyOk(pool.pages, k)} :: k in led ==> KeyOk(pool.pages, k)
  }

  ghost predicate RefsOk(pool: Pool, reqs: seq<Req>) {
    forall b: nat {:trigger RefOk(pool, reqs, b)} :: b < |pool.pages| ==> RefOk(pool, reqs, b)
  }

  ghost predicate TablesOk(c: Config, pool: Pool, led: Ledger, reqs: seq<Req>) {
    forall id: nat {:trigger TableOk(c, pool.pages, led, reqs[id])} :: id < |reqs|
        ==> TableOk(c, pool.pages, led, reqs[id])
  }

  ghost predicate SharesOk(c: Config, reqs: seq<Req>) {
    forall a: nat, b: nat {:trigger Share(c, reqs[a], reqs[b])} :: a < |reqs| && b < |reqs| && a != b
        ==> Share(c, reqs[a], reqs[b])
  }

  ghost predicate World(c: Config, pool: Pool, reqs: seq<Req>, led: Ledger) {
    && PoolOk(pool)
    && PagesOk(c, pool, led)
    && KeysOk(pool, led)
    && RefsOk(pool, reqs)
    && TablesOk(c, pool, led, reqs)
    && SharesOk(c, reqs)
  }

  // ---------------------------------------------------------------- frames

  lemma NotInLedger(pool: Pool, led: Ledger, k: Lineage)
    requires KeysOk(pool, led) && !KeyOk(pool.pages, k)
    ensures k !in led
  {
  }

  lemma UsersUpdate(reqs: seq<Req>, id: nat, r: Req, b: nat)
    requires id < |reqs|
    ensures Users(reqs[id := r], b) == if b in r.table then Users(reqs, b) + {id} else Users(reqs, b) - {id}
  {
  }

  lemma NoUsers(pool: Pool, reqs: seq<Req>, b: nat)
    requires b < |pool.pages| && RefOk(pool, reqs, b) && pool.pages[b].refs == 0
    ensures forall id: nat :: id < |reqs| ==> b !in reqs[id].table
  {
    assert Users(reqs, b) == {};
    forall id: nat | id < |reqs|
      ensures b !in reqs[id].table
    {
      assert id !in Users(reqs, b);
    }
  }

  /** The table stays good as long as none of its pages changes identity. */
  lemma TableFrame(c: Config, pages: seq<Page>, pages': seq<Page>, led: Ledger, led': Ledger, r: Req)
    requires TableOk(c, pages, led, r) && |pages'| == |pages|
    requires LedgerExtends(led, led')
    requires forall i: nat :: i < |r.table| ==> pages'[r.table[i]].(refs := 0) == pages[r.table[i]].(refs := 0)
    requires forall i: nat :: i < |r.table| && pages[r.table[i]].Published() ==> pages[r.table[i]].lin in led
    ensures TableOk(c, pages', led', r)
  {
    forall i: nat | i < |r.table|
      ensures EntryOk(c, pages', led', r, i)
    {
      assert EntryOk(c, pages, led, r, i);
      assert pages'[r.table[i]].(refs := 0) == pages[r.table[i]].(refs := 0);
      if i > 0 {
        assert pages'[r.table[i - 1]].(refs := 0) == pages[r.table[i - 1]].(refs := 0);
      }
    }
  }

  lemma OtherTable(c: Config, pool: Pool, pool': Pool, led: Ledger, led': Ledger, o: Req, b: nat)
    requires PagesOk(c, pool, led) && TableOk(c, pool.pages, led, o) && LedgerExtends(led, led')
    requires b !in o.table && b < |pool.pages| && |pool'.pages| == |pool.pages|
    requires pool'.pages == pool.pages[b := pool'.pages[b]]
    ensures TableOk(c, pool'.pages, led', o)
  {
    forall i: nat | i < |o.table| && pool.pages[o.table[i]].Published()
      ensures pool.pages[o.table[i]].lin in led
    {
      assert PageOk(c, led, pool.pages[o.table[i]]);
    }
    TableFrame(c, pool.pages, pool'.pages, led, led', o);
  }

  // ---------------------------------------------------------------- taking a free page

  ghost predicate TakeReady(c: Config, pool: Pool, reqs: seq<Req>, id: nat) {
    && id < |reqs|
    && pool.free != []
    && reqs[id].cached <= Start(|reqs[id].table|, c.B)
  }

  lemma TakePool(c: Config, pool: Pool, reqs: seq<Req>, led: Ledger, id: nat)
    requires World(c, pool, reqs, led) && TakeReady(c, pool, reqs, id)
    ensures TakeFront(pool).Ok?
    ensures var (pool', b) := TakeFront(pool).value;
            && b == pool.free[0] && b < |pool.pages| && |pool'.pages| == |pool.pages|
            && pool.pages[b].refs == 0
            && (forall id: nat :: id < |reqs| ==> b !in reqs[id].table)
            && pool'.pages == pool.pages[b := pool'.pages[b]]
            && pool'.free == pool.free[1..]
            && pool'.used == pool.used + {b}
            && PoolOk(pool') && PagesOk(c, pool', led) && KeysOk(pool', led)
            && !pool'.pages[b].Published() && pool'.pages[b].refs == 1
  {
    var b := pool.free[0];
    assert RefOk(pool, reqs, b);
    NoUsers(pool, reqs, b);
    var (pool', _) := TakeFront(pool).value;
    assert pool'.free == pool.free[1..];
    forall h | h in pool'.owner
      ensures OwnerOk(pool', h)
    {
      assert OwnerOk(pool, h);
    }
    forall k | k in led
      ensures KeyOk(pool'.pages, k)
    {
      assert KeyOk(pool.pages, k);
    }
    forall b': nat | b' < |pool'.pages|
      ensures PageOk(c, led, pool'.pages[b'])
    {
      assert PageOk(c, led, pool.pages[b']);
    }
  }

  /** A page that joins one table gains that one user; every other page keeps its users. */
  lemma UsersGain(reqs: seq<Req>, id: nat, r: Req, b: nat)
    requires id < |reqs| && r.table == reqs[id].table + [b] && b !in reqs[id].table
    ensures |Users(reqs[id := r], b)| == |Users(reqs, b)| + 1
    ensures forall x: nat :: x != b ==> Users(reqs[id := r], x) == Users(reqs, x)
  {
    UsersUpdate(reqs, id, r, b);
    assert id !in Users(reqs, b);
    forall x: nat | x != b
      ensures Users(reqs[id := r], x) == Users(reqs, x)
    {
      UsersUpdate(reqs, id, r, x);
      assert x in r.table <==> x in reqs[id].table;
      assert id in Users(reqs, x) <==> x in reqs[id].table;
    }
  }

  lemma TakeRefs(pool: Pool, pool': Pool, reqs: seq<Req>, id: nat, r: Req, b: nat)
    requires id < |reqs| && RefsOk(pool, reqs) && b < |pool.pages|
    requires NoDup(pool.free) && pool.free != [] && b == pool.free[0]
    requires r.table == reqs[id].table + [b] && b !in reqs[id].table
    requires |pool'.pages| == |pool.pages|
    requires pool'.pages == pool.pages[b := pool'.pages[b]] && pool'.pages[b].refs == 1
    requires pool'.free == pool.free[1..] && pool'.used == pool.used + {b}
    ensures RefsOk(pool', reqs[id := r])
  {
    var reqs' := reqs[id := r];
    UsersGain(reqs, id, r, b);
    assert pool.free == [b] + pool'.free;
    forall x: nat | x < |pool'.pages|
      ensures RefOk(pool', reqs', x)
    {
      assert RefOk(pool, reqs, x);
      assert RefOk(pool, reqs, b);
    }
  }

  lemma TakeTable(c: Config, pool: Pool, reqs: seq<Req>, led: Ledger, id: nat)
    requires World(c, pool, reqs, led) && TakeReady(c, pool, reqs, id) && TakeFront(pool).Ok?
    ensures var (pool', b) := TakeFront(pool).value;
            TableOk(c, pool'.pages, led, reqs[id].(table := reqs[id].table + [b]))
  {
    TakePool(c, pool, reqs, led, id);
    var (pool', b) := TakeFront(pool).value;
    var r := reqs[id];
    var r' := r.(table := r.table + [b]);
    assert TableOk(c, pool.pages, led, reqs[id]);
    forall i: nat | i < |r'.table|
      ensures EntryOk(c, pool'.pages, led, r', i)
    {
      if i < |r.table| {
        assert EntryOk(c, pool.pages, led, r, i);
      } else {
      }
    }
  }

  lemma TakeShares(c: Config, pool: Pool, reqs: seq<Req>, id: nat, b: nat)
    requires id < |reqs| && SharesOk(c, reqs)
    requires forall x: nat :: x < |reqs| ==> b !in reqs[x].table
    ensures SharesOk(c, reqs[id := reqs[id].(table := reqs[id].table + [b])])
  {
    var reqs' := reqs[id := reqs[id].(table := reqs[id].table + [b])];
    forall x: nat, y: nat | x < |reqs'| && y < |reqs'| && x != y
      ensures Share(c, reqs'[x], reqs'[y])
    {
      assert Share(c, reqs[x], reqs[y]);
    }
  }

  lemma TakeWorld(c: Config, pool: Pool, reqs: seq<Req>, led: Ledger, id: nat)
    requires World(c, pool, reqs, led) && TakeReady(c, pool, reqs, id)
    ensures TakeFront(pool).Ok?
    ensures var (pool', b) := TakeFront(pool).value;
            World(c, pool', reqs[id := reqs[id].(table := reqs[id].table + [b])], led)
  {
    TakePool(c, pool, reqs, led, id);
    var (pool', b) := TakeFront(pool).value;
    var reqs' := reqs[id := reqs[id].(table := reqs[id].table + [b])];
    TakeRefs(pool, pool', reqs, id, reqs'[id], b);
    TakeShares(c, pool, reqs, id, b);
    forall x: nat | x < |reqs'|
      ensures TableOk(c, pool'.pages, led, reqs'[x])
    {
      if x == id {
        TakeTable(c, pool, reqs, led, id);
      } else {
        assert TableOk(c, pool.pages, led, reqs[x]);
        OtherTable(c, pool, pool', led, led, reqs[x], b);
      }
    }
  }

  // ---------------------------------------------------------------- publishing a full page

  ghost predicate PublishReady(c: Config, pool: Pool, reqs: seq<Req>, id: nat, i: nat) {
    && id < |reqs|
    && i < |reqs[id].table|
    && reqs[id].table[i] < |pool.pages|
    && !pool.pages[reqs[id].table[i]].Published()
    && Start(i + 1, c.B) <= |reqs[id].tokens|
    && (i > 0 ==> reqs[id].table[i - 1] < |pool.pages| && pool.pages[reqs[id].table[i - 1]].Published())
  }

  function ParentOf(pool: Pool, r: Req, i: nat): Lineage
    requires i < |r.table| && (i > 0 ==> r.table[i - 1] < |pool.pages|)
  {
    if i == 0 then ROOT else pool.pages[r.table[i - 1]].lin
  }

  function PublishEntry(c: Config, pool: Pool, r: Req, i: nat): Pool
    requires i < |r.table| && r.table[i] < |pool.pages| && Start(i + 1, c.B) <= |r.tokens|
    requires i > 0 ==> r.table[i - 1] < |pool.pages|
  {
    Publish(pool, r.table[i], BlockHash(c, r.tokens, i), r.Block(i, c.B), ParentOf(pool, r, i))
  }

  ghost function PublishLedger(c: Config, pool: Pool, led: Ledger, r: Req, i: nat): Ledger
    requires i < |r.table| && r.table[i] < |pool.pages| && Start(i + 1, c.B) <= |r.tokens|
    requires i > 0 ==> r.table[i - 1] < |pool.pages|
  {
    led[PublishEntry(c, pool, r, i).pages[r.table[i]].lin := r.tokens[..Start(i + 1, c.B)]]
  }

  lemma BlockIsSlice(c: Config, r: Req, i: nat)
    requires Start(i + 1, c.B) <= |r.tokens|
    ensures Start(i, c.B) <= Start(i + 1, c.B) && |r.Block(i, c.B)| == c.B
    ensures r.Block(i, c.B) == r.tokens[Start(i, c.B)..Start(i + 1, c.B)]
    ensures r.tokens[..Start(i + 1, c.B)] == r.tokens[..Start(i, c.B)] + r.Block(i, c.B)
  {
    assert Start(i + 1, c.B) == Start(i, c.B) + c.B;
  }

  /** The parent's history is everything before block `i`. */
  lemma ParentHistory(c: Config, pool: Pool, reqs: seq<Req>, led: Ledger, id: nat, i: nat)
    requires PagesOk(c, pool, led) && KeysOk(pool, led) && TablesOk(c, pool, led, reqs)
    requires PublishReady(c, pool, reqs, id, i)
    ensures var parent := ParentOf(pool, reqs[id], i);
            && (parent == ROOT || parent in led)
            && Start(i, c.B) <= |reqs[id].tokens|
            && Hist(led, parent) == reqs[id].tokens[..Start(i, c.B)]
            && LineageOf(pool.pages, Before(reqs[id].table, i)) == Ok(parent)
  {
    var r := reqs[id];
    assert TableOk(c, pool.pages, led, reqs[id]);
    BlockIsSlice(c, r, i);
    NotInLedger(pool, led, ROOT);
    if i > 0 {
      assert EntryOk(c, pool.pages, led, r, i - 1);
      assert PageOk(c, led, pool.pages[r.table[i - 1]]);
      assert KeyOk(pool.pages, pool.pages[r.table[i - 1]].lin);
    }
  }

  /** Equal lineages mean equal prefixes: a shared lineage already stands for these very tokens. */
  lemma PublishMeaning(c: Config, pool: Pool, reqs: seq<Req>, led: Ledger, id: nat, i: nat)
    requires PoolOk(pool) && PagesOk(c, pool, led) && KeysOk(pool, led) && TablesOk(c, pool, led, reqs)
    requires PublishReady(c, pool, reqs, id, i)
    ensures LedgerExtends(led, PublishLedger(c, pool, led, reqs[id], i))
    ensures var lin := PublishEntry(c, pool, reqs[id], i).pages[reqs[id].table[i]].lin;
            lin in led || lin == Lineage(reqs[id].table[i], pool.pages[reqs[id].table[i]].gen)
  {
    var r := reqs[id];
    var b := r.table[i];
    ParentHistory(c, pool, reqs, led, id, i);
    BlockIsSlice(c, r, i);
    var h := BlockHash(c, r.tokens, i);
    if SameBlock(pool, h, r.Block(i, c.B), ParentOf(pool, r, i)) {
      assert PageOk(c, led, pool.pages[pool.owner[h]]);
    } else {
      NotInLedger(pool, led, Lineage(b, pool.pages[b].gen));
    }
  }

  lemma PublishKeys(c: Config, pool: Pool, reqs: seq<Req>, led: Ledger, id: nat, i: nat)
    requires PoolOk(pool) && PagesOk(c, pool, led) && KeysOk(pool, led) && TablesOk(c, pool, led, reqs)
    requires PublishReady(c, pool, reqs, id, i)
    ensures KeysOk(PublishEntry(c, pool, reqs[id], i), PublishLedger(c, pool, led, reqs[id], i))
  {
    var pool' := PublishEntry(c, pool, reqs[id], i);
    var led' := PublishLedger(c, pool, led, reqs[id], i);
    PublishMeaning(c, pool, reqs, led, id, i);
    forall k | k in led'
      ensures KeyOk(pool'.pages, k)
    {
      if k in led { assert KeyOk(pool.pages, k); }
    }
  }

  lemma PageOkGrows(c: Config, pool: Pool, led: Ledger, led': Ledger, p: Page)
    requires PageOk(c, led, p) && LedgerExtends(led, led') && KeysOk(pool, led')
    ensures PageOk(c, led', p)
  {
    NotInLedger(pool, led', ROOT);
  }

  lemma PublishPages(c: Config, pool: Pool, reqs: seq<Req>, led: Ledger, id: nat, i: nat)
    requires PoolOk(pool) && PagesOk(c, pool, led) && KeysOk(pool, led) && TablesOk(c, pool, led, reqs)
    requires PublishReady(c, pool, reqs, id, i)
    ensures PagesOk(c, PublishEntry(c, pool, reqs[id], i), PublishLedger(c, pool, led, reqs[id], i))
  {
    var r := reqs[id];
    var pool' := PublishEntry(c, pool, r, i);
    var led' := PublishLedger(c, pool, led, r, i);
    PublishMeaning(c, pool, reqs, led, id, i);
    PublishKeys(c, pool, reqs, led, id, i);
    forall x: nat | x < |pool'.pages|
      ensures PageOk(c, led', pool'.pages[x])
    {
      assert PageOk(c, led, pool.pages[x]);
      if x == r.table[i] {
        PublishedPage(c, pool, reqs, led, id, i);
      } else {
        PageOkGrows(c, pool', led, led', pool.pages[x]);
      }
    }
  }

  lemma PublishedPage(c: Config, pool: Pool, reqs: seq<Req>, led: Ledger, id: nat, i: nat)
    requires PoolOk(pool) && PagesOk(c, pool, led) && KeysOk(pool, led) && TablesOk(c, pool, led, reqs)
    requires PublishReady(c, pool, reqs, id, i)
    ensures PageOk(c, PublishLedger(c, pool, led, reqs[id], i),
                   PublishEntry(c, pool, reqs[id], i).pages[reqs[id].table[i]])
  {
    var r := reqs[id];
    PublishMeaning(c, pool, reqs, led, id, i);
    ParentHistory(c, pool, reqs, led, id, i);
    BlockIsSlice(c, r, i);
    assert PageOk(c, led, pool.pages[r.table[i]]);
    PublishKeys(c, pool, reqs, led, id, i);
    NotInLedger(PublishEntry(c, pool, r, i), PublishLedger(c, pool, led, r, i), ROOT);
  }

  lemma PublishOwners(c: Config, pool: Pool, r: Req, i: nat)
    requires PoolOk(pool)
    requires i < |r.table| && r.table[i] < |pool.pages| && !pool.pages[r.table[i]].Published()
    requires Start(i + 1, c.B) <= |r.tokens| && (i > 0 ==> r.table[i - 1] < |pool.pages|)
    ensures PoolOk(PublishEntry(c, pool, r, i))
  {
    var pool' := PublishEntry(c, pool, r, i);
    forall h | h in pool'.owner
      ensures OwnerOk(pool', h)
    {
      if h in pool.owner { assert OwnerOk(pool, h); }
    }
  }

  /** An unpublished page is in no other table, because nobody has it completely cached. */
  lemma Exclusive(c: Config, pool: Pool, reqs: seq<Req>, led: Ledger, id: nat, i: nat, o: nat)
    requires TablesOk(c, pool, led, reqs) && SharesOk(c, reqs)
    requires PublishReady(c, pool, reqs, id, i) && o < |reqs| && o != id
    ensures reqs[id].table[i] !in reqs[o].table
  {
    var b := reqs[id].table[i];
    assert TableOk(c, pool.pages, led, reqs[id]);
    assert TableOk(c, pool.pages, led, reqs[o]);
    assert EntryOk(c, pool.pages, led, reqs[id], i);
    assert Share(c, reqs[id], reqs[o]);
    forall j: nat | j < |reqs[o].table|
      ensures reqs[o].table[j] != b
    {
      assert EntryOk(c, pool.pages, led, reqs[o], j);
    }
  }

  /** Publishing entry `i` leaves the other entries of the same table good. */
  lemma PublishOwnEntry(c: Config, pages: seq<Page>, pages': seq<Page>, led: Ledger, led': Ledger, r: Req, i: nat,
                        j: nat)
    requires TableOk(c, pages, led, r) && LedgerExtends(led, led')
    requires i < |r.table| && j < |r.table| && !pages[r.table[i]].Published()
    requires |pages'| == |pages| && pages' == pages[r.table[i] := pages'[r.table[i]]]
    requires pages[r.table[j]].Published() ==> pages[r.table[j]].lin in led
    requires var p := pages'[r.table[i]];
             && p.Published()
             && Start(i + 1, c.B) <= |r.tokens|
             && Hist(led', p.lin) == r.tokens[..Start(i + 1, c.B)]
             && (i == 0 ==> p.parent == ROOT)
             && (i > 0 ==> pages[r.table[i - 1]].Published() && p.parent == pages[r.table[i - 1]].lin)
    ensures EntryOk(c, pages', led', r, j)
  {
    assert EntryOk(c, pages, led, r, j);
    if j > 0 {
      assert EntryOk(c, pages, led, r, j - 1);
    }
  }

  lemma PublishOwnTable(c: Config, pool: Pool, reqs: seq<Req>, led: Ledger, id: nat, i: nat)
    requires PoolOk(pool) && PagesOk(c, pool, led) && KeysOk(pool, led) && TablesOk(c, pool, led, reqs)
    requires PublishReady(c, pool, reqs, id, i)
    ensures TableOk(c, PublishEntry(c, pool, reqs[id], i).pages, PublishLedger(c, pool, led, reqs[id], i), reqs[id])
  {
    var r := reqs[id];
    var pool' := PublishEntry(c, pool, r, i);
    var led' := PublishLedger(c, pool, led, r, i);
    PublishMeaning(c, pool, reqs, led, id, i);
    assert TableOk(c, pool.pages, led, reqs[id]);
    forall j: nat | j < |r.table|
      ensures EntryOk(c, pool'.pages, led', r, j)
    {
      assert PageOk(c, led, pool.pages[r.table[j]]);
      PublishOwnEntry(c, pool.pages, pool'.pages, led, led', r, i, j);
    }
  }

  lemma PublishWorld(c: Config, pool: Pool, reqs: seq<Req>, led: Ledger, id: nat, i: nat)
    requires World(c, pool, reqs, led) && PublishReady(c, pool, reqs, id, i)
    ensures World(c, PublishEntry(c, pool, reqs[id], i), reqs, PublishLedger(c, pool, led, reqs[id], i))
    ensures LedgerExtends(led, PublishLedger(c, pool, led, reqs[id], i))
  {
    var r := reqs[id];
    var pool' := PublishEntry(c, pool, r, i);
    var led' := PublishLedger(c, pool, led, r, i);
    PublishMeaning(c, pool, reqs, led, id, i);
    PublishOwners(c, pool, r, i);
    PublishPages(c, pool, reqs, led, id, i);
    PublishKeys(c, pool, reqs, led, id, i);
    forall x: nat | x < |pool'.pages|
      ensures RefOk(pool', reqs, x)
    {
      assert RefOk(pool, reqs, x);
    }
    forall x: nat | x < |reqs|
      ensures TableOk(c, pool'.pages, led', reqs[x])
    {
      if x == id {
        PublishOwnTable(c, pool, reqs, led, id, i);
      } else {
        Exclusive(c, pool, reqs, led, id, i, x);
        OtherTable(c, pool, pool', led, led', reqs[x], r.table[i]);
      }
    }
  }

  // ---------------------------------------------------------------- claiming a cached page

  ghost predicate ClaimReady(c: Config, pool: Pool, led: Ledger, r: Req, b: nat) {
    && r.newToks == 0
    && r.cached == Start(|r.table|, c.B)
    && b < |pool.pages| && b !in r.table
    && AllBelow(r.table, |pool.pages|)
    && pool.pages[b].Published()
    && Start(|r.table| + 1, c.B) <= |r.tokens|
    && Hist(led, pool.pages[b].lin) == r.tokens[..Start(|r.table| + 1, c.B)]
    && (|r.table| == 0 ==> pool.pages[b].parent == ROOT)
    && (|r.table| > 0 ==>
          && pool.pages[r.table[|r.table| - 1]].Published()
          && pool.pages[b].parent == pool.pages[r.table[|r.table| - 1]].lin)
  }

  function Claimed(c: Config, r: Req, b: nat): Req {
    r.(table := r.table + [b], cached := r.cached + c.B)
  }

  ghost predicate SameIdentities(pages: seq<Page>, pages': seq<Page>) {
    && |pages'| == |pages|
    && forall b: nat :: b < |pages| ==> pages'[b].(refs := 0) == pages[b].(refs := 0)
  }

  lemma ClaimPool(c: Config, pool: Pool, reqs: seq<Req>, led: Ledger, b: nat)
    requires PoolOk(pool) && PagesOk(c, pool, led) && KeysOk(pool, led) && RefsOk(pool, reqs)
    requires b < |pool.pages|
    ensures var pool' := ClaimPage(pool, b);
            && PoolOk(pool') && PagesOk(c, pool', led) && KeysOk(pool', led)
            && SameIdentities(pool.pages, pool'.pages) && pool'.owner == pool.owner
            && (forall x :: x in pool'.free <==> x in pool.free && x != b)
            && |pool'.free| == |pool.free| - (if b in pool.free then 1 else 0)
            && pool'.used == pool.used + {b}
            && pool'.pages == pool.pages[b := pool.pages[b].(refs := pool.pages[b].refs + 1)]
  {
    var pool' := ClaimPage(pool, b);
    RemoveSound(pool.free, b);
    assert RefOk(pool, reqs, b);
    forall k | 0 <= k < |pool'.free|
      ensures pool'.free[k] < |pool'.pages|
    {
      assert pool'.free[k] in pool.free;
    }
    forall x: nat | x < |pool'.pages|
      ensures PageOk(c, led, pool'.pages[x])
    {
      assert PageOk(c, led, pool.pages[x]);
    }
    forall k | k in led
      ensures KeyOk(pool'.pages, k)
    {
      assert KeyOk(pool.pages, k);
    }
    forall h | h in pool'.owner
      ensures OwnerOk(pool', h)
    {
      assert OwnerOk(pool, h);
    }
  }

  lemma ClaimRefs(pool: Pool, pool': Pool, reqs: seq<Req>, id: nat, r: Req, b: nat)
    requires id < |reqs| && RefsOk(pool, reqs) && b < |pool.pages|
    requires r.table == reqs[id].table + [b] && b !in reqs[id].table
    requires pool'.pages == pool.pages[b := pool.pages[b].(refs := pool.pages[b].refs + 1)]
    requires forall x :: x in pool'.free <==> x in pool.free && x != b
    requires pool'.used == pool.used + {b}
    ensures RefsOk(pool', reqs[id := r])
  {
    var reqs' := reqs[id := r];
    UsersGain(reqs, id, r, b);
    forall x: nat | x < |pool'.pages|
      ensures RefOk(pool', reqs', x)
    {
      assert RefOk(pool, reqs, x);
    }
  }

  lemma ClaimOwnTable(c: Config, pages: seq<Page>, pages': seq<Page>, led: Ledger, r: Req, b: nat, pool: Pool)
    requires TableOk(c, pages, led, r) && pool.pages == pages && ClaimReady(c, pool, led, r, b)
    requires SameIdentities(pages, pages')
    ensures TableOk(c, pages', led, Claimed(c, r, b))
  {
    var r' := Claimed(c, r, b);
    forall i: nat | i < |r'.table|
      ensures EntryOk(c, pages', led, r', i)
    {
      assert pages'[r'.table[i]].(refs := 0) == pages[r'.table[i]].(refs := 0);
      if i > 0 {
        assert pages'[r'.table[i - 1]].(refs := 0) == pages[r'.table[i - 1]].(refs := 0);
      }
      if i < |r.table| {
        assert EntryOk(c, pages, led, r, i);
        StartMono(i + 1, |r.table|, c.B);
      }
    }
  }

  /** A table whose pages are all completely cached shares freely. */
  lemma SettledShares(c: Config, r: Req, o: Req)
    requires r.cached >= Start(|r.table|, c.B)
    ensures Share(c, r, o) && Share(c, o, r)
  {
    forall i: nat, j: nat | i < |r.table| && j < |o.table| && r.table[i] == o.table[j]
      ensures Start(i + 1, c.B) <= r.cached
    {
      StartMono(i + 1, |r.table|, c.B);
    }
  }

  lemma RefsOnlyTables(c: Config, pool: Pool, pool': Pool, led: Ledger, r: Req)
    requires PagesOk(c, pool, led) && TableOk(c, pool.pages, led, r) && SameIdentities(pool.pages, pool'.pages)
    ensures TableOk(c, pool'.pages, led, r)
  {
    forall i: nat | i < |r.table| && pool.pages[r.table[i]].Published()
      ensures pool.pages[r.table[i]].lin in led
    {
      assert PageOk(c, led, pool.pages[r.table[i]]);
    }
    TableFrame(c, pool.pages, pool'.pages, led, led, r);
  }

  lemma ClaimWorld(c: Config, pool: Pool, reqs: seq<Req>, led: Ledger, id: nat, b: nat)
    requires World(c, pool, reqs, led) && id < |reqs| && ClaimReady(c, pool, led, reqs[id], b)
    ensures World(c, ClaimPage(pool, b), reqs[id := Claimed(c, reqs[id], b)], led)
  {
    var pool' := ClaimPage(pool, b);
    var r' := Claimed(c, reqs[id], b);
    var reqs' := reqs[id := r'];
    ClaimPool(c, pool, reqs, led, b);
    ClaimRefs(pool, pool', reqs, id, r', b);
    forall x: nat | x < |reqs'|
      ensures TableOk(c, pool'.pages, led, reqs'[x])
    {
      assert TableOk(c, pool.pages, led, reqs[x]);
      if x == id {
        ClaimOwnTable(c, pool.pages, pool'.pages, led, reqs[id], b, pool);
      } else {
        RefsOnlyTables(c, pool, pool', led, reqs[x]);
      }
    }
    forall x: nat, y: nat | x < |reqs'| && y < |reqs'| && x != y
      ensures Share(c, reqs'[x], reqs'[y])
    {
      if x == id || y == id {
        SettledShares(c, r', if x == id then reqs'[y] else reqs'[x]);
      } else {
        assert Share(c, reqs[x], reqs[y]);
      }
    }
  }

  // ---------------------------------------------------------------- releasing the last page

  function Released(r: Req): Req
    requires r.table != []
  {
    r.(table := r.table[..|r.table| - 1])
  }

  lemma ReleasePool(c: Config, pool: Pool, reqs: seq<Req>, led: Ledger, b: nat)
    requires PoolOk(pool) && PagesOk(c, pool, led) && KeysOk(pool, led) && RefsOk(pool, reqs)
    requires b < |pool.pages| && pool.pages[b].refs > 0
    ensures var pool' := ReleasePage(pool, b);
            && PoolOk(pool') && PagesOk(c, pool', led) && KeysOk(pool', led)
            && SameIdentities(pool.pages, pool'.pages) && pool'.owner == pool.owner
            && (forall x :: x in pool'.free <==> x in pool.free || (x == b && pool.pages[b].refs == 1))
            && (forall x :: x in pool'.used <==> x in pool.used && !(x == b && pool.pages[b].refs == 1))
            && |pool'.free| == |pool.free| + (if pool.pages[b].refs == 1 then 1 else 0)
            && pool'.pages == pool.pages[b := pool.pages[b].(refs := pool.pages[b].refs - 1)]
  {
    var pool' := ReleasePage(pool, b);
    assert RefOk(pool, reqs, b);
    forall x: nat | x < |pool'.pages|
      ensures PageOk(c, led, pool'.pages[x])
    {
      assert PageOk(c, led, pool.pages[x]);
    }
    forall k | k in led
      ensures KeyOk(pool'.pages, k)
    {
      assert KeyOk(pool.pages, k);
    }
    forall h | h in pool'.owner
      ensures OwnerOk(pool', h)
    {
      assert OwnerOk(pool, h);
    }
  }

  lemma UsersLose(reqs: seq<Req>, id: nat, b: nat)
    requires id < |reqs| && reqs[id].table != [] && NoDup(reqs[id].table)
    requires b == reqs[id].table[|reqs[id].table| - 1]
    ensures |Users(reqs[id := Released(reqs[id])], b)| == |Users(reqs, b)| - 1
    ensures forall x: nat :: x != b ==> Users(reqs[id := Released(reqs[id])], x) == Users(reqs, x)
  {
    var r := Released(reqs[id]);
    assert reqs[id].table == r.table + [b];
    UsersUpdate(reqs, id, r, b);
    assert id in Users(reqs, b);
    assert b !in r.table;
    forall x: nat | x != b
      ensures Users(reqs[id := r], x) == Users(reqs, x)
    {
      UsersUpdate(reqs, id, r, x);
      assert x in r.table <==> x in reqs[id].table;
      assert id in Users(reqs, x) <==> x in reqs[id].table;
    }
  }

  lemma ReleaseRefs(c: Config, pool: Pool, reqs: seq<Req>, led: Ledger, id: nat)
    requires PoolOk(pool) && PagesOk(c, pool, led) && KeysOk(pool, led) && RefsOk(pool, reqs)
    requires id < |reqs| && reqs[id].table != [] && NoDup(reqs[id].table) && AllBelow(reqs[id].table, |pool.pages|)
    ensures pool.pages[reqs[id].table[|reqs[id].table| - 1]].refs > 0
    ensures RefsOk(ReleasePage(pool, reqs[id].table[|reqs[id].table| - 1]), reqs[id := Released(reqs[id])])
  {
    var b := reqs[id].table[|reqs[id].table| - 1];
    var pool' := ReleasePage(pool, b);
    var reqs' := reqs[id := Released(reqs[id])];
    assert RefOk(pool, reqs, b);
    assert id in Users(reqs, b);
    UsersLose(reqs, id, b);
    ReleasePool(c, pool, reqs, led, b);
    forall x: nat | x < |pool'.pages|
      ensures RefOk(pool', reqs', x)
    {
      assert RefOk(pool, reqs, x);
    }
  }

  lemma ReleaseWorld(c: Config, pool: Pool, reqs: seq<Req>, led: Ledger, id: nat)
    requires World(c, pool, reqs, led) && id < |reqs| && reqs[id].table != []
    ensures AllBelow(reqs[id].table, |pool.pages|)
    ensures World(c, ReleasePage(pool, reqs[id].table[|reqs[id].table| - 1]), reqs[id := Released(reqs[id])], led)
  {
    var r := reqs[id];
    var r' := Released(r);
    var reqs' := reqs[id := r'];
    assert TableOk(c, pool.pages, led, reqs[id]);
    var pool' := ReleasePage(pool, r.table[|r.table| - 1]);
    ReleaseRefs(c, pool, reqs, led, id);
    ReleasePool(c, pool, reqs, led, r.table[|r.table| - 1]);
    forall x: nat | x < |reqs'|
      ensures TableOk(c, pool'.pages, led, reqs'[x])
    {
      assert TableOk(c, pool.pages, led, reqs[x]);
      RefsOnlyTables(c, pool, pool', led, reqs[x]);
      if x == id {
        forall i: nat | i < |r'.table|
          ensures EntryOk(c, pool'.pages, led, r', i)
        {
          assert EntryOk(c, pool'.pages, led, r, i);
        }
      }
    }
    forall x: nat, y: nat | x < |reqs'| && y < |reqs'| && x != y
      ensures Share(c, reqs'[x], reqs'[y])
    {
      assert Share(c, reqs[x], reqs[y]);
    }
  }

  // ---------------------------------------------------------------- progress on one request

  /** Anything about a request may change that keeps its table and does not forget cached tokens. */
  lemma ProgressWorld(c: Config, pool: Pool, reqs: seq<Req>, led: Ledger, id: nat, r: Req)
    requires World(c, pool, reqs, led) && id < |reqs|
    requires r.table == reqs[id].table && TableOk(c, pool.pages, led, r)
    requires r.cached >= reqs[id].cached || r.table == []
    ensures World(c, pool, reqs[id := r], led)
  {
    var reqs' := reqs[id := r];
    forall x: nat | x < |pool.pages|
      ensures RefOk(pool, reqs', x)
    {
      assert RefOk(pool, reqs, x);
      UsersUpdate(reqs, id, r, x);
      assert id in Users(reqs, x) <==> x in r.table;
      assert Users(reqs', x) == Users(reqs, x);
    }
    forall x: nat | x < |reqs'|
      ensures TableOk(c, pool.pages, led, reqs'[x])
    {
      assert TableOk(c, pool.pages, led, reqs[x]);
    }
    forall x: nat, y: nat | x < |reqs'| && y < |reqs'| && x != y
      ensures Share(c, reqs'[x], reqs'[y])
    {
      assert Share(c, reqs[x], reqs[y]);
    }
  }
}
