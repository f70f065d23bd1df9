/** The page pool and the operations of the block manager, as functions on values. */
module Pages {
  import opened Arith
  import opened Seqs
  import opened Requests

  /** Names one published prefix: the page that first held it, and that page's generation then. */
  datatype Lineage = Lineage(block: int, gen: int)

  const ROOT: Lineage := Lineage(-1, -1)

  datatype Page = Page(
    refs: int,
    gen: nat,
    hash: int,
    lin: Lineage,
    parent: Lineage,
    tokens: seq<Token>)
  {
    predicate Published() { hash != -1 }
  }

  const BLANK: Page := Page(0, 0, -1, ROOT, ROOT, [])

  datatype Pool = Pool(
    pages: seq<Page>,
    free: seq<nat>,          // free_block_ids, front first
    used: set<nat>,          // used_block_ids
    owner: map<int, nat>)    // hash_to_block_id

  function InitPool(c: Config): Pool {
    Pool(seq(c.numBlocks, _ => BLANK), seq(c.numBlocks, i => i), {}, map[])
  }

  predicate AllBelow(ids: seq<nat>, n: nat) {
    forall k :: 0 <= k < |ids| ==> ids[k] < n
  }

  /** `_lineage`: the root for -1, otherwise the lineage of a published page. */
  function LineageOf(pages: seq<Page>, b: int): Result<Lineage> {
    if b == -1 then Ok(ROOT)
    else if !(0 <= b < |pages|) || pages[b].hash == -1
            || pages[b].lin.block == -1 || pages[b].lin.gen == -1 then Err(AssertionFailed)
    else Ok(pages[b].lin)
  }

  /** The page is in exactly one of the two pools and its reference count agrees. */
  predicate Resident(pool: Pool, b: nat)
    requires b < |pool.pages|
  {
    var isFree, isUsed := b in pool.free, b in pool.used;
    && isFree != isUsed
    && ((isFree && pool.pages[b].refs == 0) || (isUsed && pool.pages[b].refs > 0))
  }

  /** The current owner of `h` holds exactly this block under exactly this parent. */
  predicate SameBlock(pool: Pool, h: int, tokens: seq<Token>, parent: Lineage) {
    && h in pool.owner
    && pool.owner[h] < |pool.pages|
    && Resident(pool, pool.owner[h])
    && var o := pool.pages[pool.owner[h]];
    && o.hash == h && o.tokens == tokens && o.parent == parent
  }

  function CanonicalLineage(pool: Pool, b: nat, h: int, tokens: seq<Token>, parent: Lineage): Lineage
    requires b < |pool.pages|
  {
    if SameBlock(pool, h, tokens, parent) then pool.pages[pool.owner[h]].lin
    else Lineage(b, pool.pages[b].gen)
  }

  /** `_publish_full_block` */
  function Publish(pool: Pool, b: nat, h: int, tokens: seq<Token>, parent: Lineage): Pool
    requires b < |pool.pages|
  {
    var lin := CanonicalLineage(pool, b, h, tokens, parent);
    pool.(pages := pool.pages[b := pool.pages[b].(hash := h, lin := lin, parent := parent, tokens := tokens)],
          owner := pool.owner[h := b])
  }

  /** `_allocate_block`: evicts whatever the free page still caches and starts a new generation. */
  function Allocate(pool: Pool, b: nat): Result<Pool> {
    if b >= |pool.pages| || pool.pages[b].refs != 0 || b !in pool.free then Err(AssertionFailed)
    else
      var p := pool.pages[b];
      var owner' := if p.hash in pool.owner && pool.owner[p.hash] == b then pool.owner - {p.hash} else pool.owner;
      var p' := Page(1, p.gen + 1, -1, Lineage(b, p.gen + 1), ROOT, []);
      Ok(Pool(pool.pages[b := p'], Remove(pool.free, b), pool.used + {b}, owner'))
  }

  function TakeFront(pool: Pool): Result<(Pool, nat)> {
    if pool.free == [] then Err(AssertionFailed)
    else
      var pool' :- Allocate(pool, pool.free[0]);
      Ok((pool', pool.free[0]))
  }

  /** One claim of `claim_prefix`: a cached free page is taken as it is, a used one gains a reference. */
  function ClaimPage(pool: Pool, b: nat): (r: Pool)
    requires b < |pool.pages|
    ensures |r.pages| == |pool.pages|
  {
    if b in pool.free then
      Pool(pool.pages[b := pool.pages[b].(refs := 1)], Remove(pool.free, b), pool.used + {b}, pool.owner)
    else
      pool.(pages := pool.pages[b := pool.pages[b].(refs := pool.pages[b].refs + 1)])
  }

  /** One round of `deallocate`. */
  function ReleasePage(pool: Pool, b: nat): (r: Pool)
    requires b < |pool.pages|
    ensures |r.pages| == |pool.pages|
  {
    var p := pool.pages[b].(refs := pool.pages[b].refs - 1);
    if p.refs == 0 then
      Pool(pool.pages[b := p], pool.free + [b], pool.used - {b}, pool.owner)
    else
      pool.(pages := pool.pages[b := p])
  }

  /** The page before index `i` of a table, or -1 at its start. */
  function Before(table: seq<nat>, i: nat): int
    requires i <= |table|
  {
    if i == 0 then -1 else table[i - 1]
  }

  /** `_validate_claimed_prefix`, for one page of the table. */
  predicate ClaimedPageValid(c: Config, pool: Pool, r: Req, i: nat)
    requires i < |r.table|
  {
    && r.table[i] < |pool.pages|
    && Start(i + 1, c.B) <= |r.tokens|
    && var p := pool.pages[r.table[i]];
    && LineageOf(pool.pages, Before(r.table, i)).Ok?
    && r.table[i] in pool.used && r.table[i] !in pool.free && p.refs > 0
    && p.hash == BlockHash(c, r.tokens, i)
    && p.tokens == r.Block(i, c.B)
    && p.lin.block != -1 && p.lin.gen != -1
    && p.parent == LineageOf(pool.pages, Before(r.table, i)).value
  }

  predicate ClaimedPrefixValid(c: Config, pool: Pool, r: Req) {
    && r.cached == Start(|r.table|, c.B)
    && forall i :: 0 <= i < |r.table| ==> ClaimedPageValid(c, pool, r, i)
  }

  /** Page `b` may extend the chain that ends in `prev` with block `i` of the request. */
  predicate Extends(c: Config, pool: Pool, r: Req, i: nat, parent: Lineage, b: nat)
    requires Start(i + 1, c.B) <= |r.tokens|
  {
    && b < |pool.pages|
    && pool.pages[b].hash == BlockHash(c, r.tokens, i)
    && pool.pages[b].tokens == r.Block(i, c.B)
    && pool.pages[b].parent == parent
    && Resident(pool, b)
  }

  function Last(table: seq<nat>): int {
    Before(table, |table|)
  }

  /** The page before the next one: the last one found, or else the last one of the table. */
  function Previous(table: seq<nat>, found: seq<nat>): int {
    if found == [] then Last(table) else found[|found| - 1]
  }

  /** The loop of `match_prefix`: `matched` are the pages found so far for blocks up to `i`. */
  function MatchFrom(c: Config, pool: Pool, r: Req, i: nat, stop: nat, matched: seq<nat>): Result<seq<nat>>
    decreases stop - i
  {
    if i >= stop || Start(i + 1, c.B) > |r.tokens| then Ok(matched)
    else
      var h := BlockHash(c, r.tokens, i);
      if h !in pool.owner || pool.owner[h] >= |pool.pages| then Ok(matched)
      else
        var b := pool.owner[h];
        var parent :- LineageOf(pool.pages, Previous(r.table, matched));
        if !Extends(c, pool, r, i, parent, b) || b in r.table || b in matched then Ok(matched)
        else MatchFrom(c, pool, r, i + 1, stop, matched + [b])
  }

  /** `match_prefix`: never looks at the last block, so at least one token is left to compute. */
  function MatchPrefix(c: Config, pool: Pool, r: Req): Result<seq<nat>> {
    if !ClaimedPrefixValid(c, pool, r) then Err(AssertionFailed)
    else MatchFrom(c, pool, r, |r.table|, Max(|r.table|, r.NumBlocks(c.B) - 1), [])
  }

  function FreeAmong(pool: Pool, ids: seq<nat>): set<nat> {
    set b | b in ids && b in pool.free
  }

  /** The number of planned pages that are cached but free. */
  function CachedFree(pool: Pool, ids: seq<nat>): nat {
    |FreeAmong(pool, ids)|
  }

  /** `num_blocks_required_for_admission` */
  function RequiredForAdmission(c: Config, pool: Pool, blocks: seq<nat>, n: nat): nat {
    CachedFree(pool, blocks) + Ceil(n, c.B)
  }

  /** The checks of `claim_prefix` on entry `k` of the plan. */
  function EntryError(c: Config, pool: Pool, r: Req, ids: seq<nat>, k: nat): Result<()>
    requires k < |ids|
  {
    var i := |r.table| + k;
    if i >= r.NumBlocks(c.B) - 1 || ids[k] >= |pool.pages| || Start(i + 1, c.B) > |r.tokens| then Err(AssertionFailed)
    else
      var parent :- LineageOf(pool.pages, Previous(r.table, ids[..k]));
      var h := BlockHash(c, r.tokens, i);
      if h !in pool.owner || pool.owner[h] != ids[k] then Err(StalePlan)
      else if !Extends(c, pool, r, i, parent, ids[k]) then Err(StalePlan)
      else Ok(())
  }

  /** The checks on the whole plan, entry by entry from `k` on. */
  function PlanError(c: Config, pool: Pool, r: Req, ids: seq<nat>, k: nat): Result<()>
    requires k <= |ids|
    decreases |ids| - k
  {
    if k == |ids| then Ok(())
    else
      var _ :- EntryError(c, pool, r, ids, k);
      PlanError(c, pool, r, ids, k + 1)
  }

  function ClaimPages(c: Config, pool: Pool, r: Req, ids: seq<nat>): (Pool, Req)
    requires AllBelow(ids, |pool.pages|)
    decreases |ids|
  {
    if ids == [] then (pool, r)
    else
      ClaimPages(c, ClaimPage(pool, ids[0]), r.(table := r.table + [ids[0]], cached := r.cached + c.B), ids[1..])
  }

  /** `claim_prefix`: all checks come before the first change. */
  function ClaimPrefix(c: Config, pool: Pool, r: Req, ids: seq<nat>): Result<(Pool, Req)> {
    if !ClaimedPrefixValid(c, pool, r) || !NoDup(ids) then Err(AssertionFailed)
    else
      var _ :- PlanError(c, pool, r, ids, 0);
      if !AllBelow(ids, |pool.pages|) then Err(AssertionFailed)
      else Ok(ClaimPages(c, pool, r, ids))
  }

  /** One round of `allocate_new` and `may_append`: carry the table from `Context()` to the next page end or `end`. */
  function GrowStep(c: Config, pool: Pool, r: Req, end: nat): Result<(Pool, Req)>
    requires r.Context() < end || (r.Context() == end && Start(end / c.B, c.B) < end)
  {
    DivStart(r.Context(), c.B);
    var i := r.Context() / c.B;
    var next := Start(i + 1, c.B);
    if i > |r.table| then Err(AssertionFailed)
    else
      var parent :- LineageOf(pool.pages, Before(r.table, i));
      if i < |r.table| && (r.table[i] >= |pool.pages| || pool.pages[r.table[i]].hash != -1) then Err(AssertionFailed)
      else
        var (pool1, b) :- if i < |r.table| then Ok((pool, r.table[i])) else TakeFront(pool);
        var table1 := if i < |r.table| then r.table else r.table + [b];
        if b >= |pool1.pages| then Err(AssertionFailed)
        else
          var r' := r.(table := table1, newToks := Min(next, end) - r.cached);
          if next <= end && next <= |r.tokens| then
            Ok((Publish(pool1, b, BlockHash(c, r.tokens, i), r.Block(i, c.B), parent), r'))
          else
            Ok((pool1, r'))
  }

  /** The whole loop. */
  function Grow(c: Config, pool: Pool, r: Req, end: nat): Result<(Pool, Req)>
    decreases end - r.Context()
  {
    if r.Context() >= end then Ok((pool, r))
    else
      var step :- GrowStep(c, pool, r, end);
      assert step.1.Context() > r.Context() by { DivStart(r.Context(), c.B); }
      Grow(c, step.0, step.1, end)
  }

  /** `allocate_new`, with `num_new_tokens` already set on the request. */
  function AllocateNew(c: Config, pool: Pool, r: Req): Result<(Pool, Req)> {
    if !ClaimedPrefixValid(c, pool, r) || r.Context() > |r.tokens| || Ceil(r.newToks, c.B) > |pool.free|
    then Err(AssertionFailed)
    else Grow(c, pool, r.(newToks := 0), r.Context())
  }

  /** `num_blocks_to_append` */
  function NumBlocksToAppend(c: Config, r: Req, n: nat): nat {
    Max(Ceil(r.cached + n, c.B) - |r.table|, 0)
  }

  /** `may_append`, with `num_new_tokens` already set on the request. With no tokens to append, a started page
      is still looked at once, and taken if the table lacks it. */
  function MayAppend(c: Config, pool: Pool, r: Req): Result<(Pool, Req)> {
    if r.newToks == 0 && Start(r.cached / c.B, c.B) < r.cached then GrowStep(c, pool, r, r.cached)
    else Grow(c, pool, r.(newToks := 0), r.Context())
  }

  /** Every page whose last reference goes is among the used ones, where `deallocate` takes it from. */
  predicate CanRelease(pool: Pool, table: seq<nat>)
    requires AllBelow(table, |pool.pages|)
    decreases |table|
  {
    table != [] ==>
      var b := table[|table| - 1];
      && (pool.pages[b].refs == 1 ==> b in pool.used)
      && CanRelease(ReleasePage(pool, b), table[..|table| - 1])
  }

  /** The loop of `deallocate`: pages are released from the end of the table. */
  function ReleasePages(pool: Pool, table: seq<nat>): Pool
    requires AllBelow(table, |pool.pages|)
    decreases |table|
  {
    if table == [] then pool
    else ReleasePages(ReleasePage(pool, table[|table| - 1]), table[..|table| - 1])
  }

  /** `deallocate` */
  function Deallocate(pool: Pool, r: Req): Result<(Pool, Req)> {
    if !AllBelow(r.table, |pool.pages|) || !CanRelease(pool, r.table) then Err(AssertionFailed)
    else Ok((ReleasePages(pool, r.table), r.(cached := 0, newToks := 0, table := [])))
  }
}
