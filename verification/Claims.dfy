/** Exactly which plans can be claimed, exactly which allocations succeed, and what the others raise. */
module Claims {
  import opened Arith
  import opened Seqs
  import opened Requests
  import opened Pages
  import opened CacheInvariant
  import opened KvMemory
  import opened Growth
  import opened Matching
  import opened FreeDeque

  // ---------------------------------------------------------------- claims

  /** Entry `k` exists and may be looked at: it is not the last block, and there is such a page. */
  predicate InReach(c: Config, pool: Pool, r: Req, ids: seq<nat>, k: nat)
    requires k < |ids|
  {
    |r.table| + k + 1 < r.NumBlocks(c.B) && ids[k] < |pool.pages|
  }

  /** The plan is sound up to entry `k`, which the cache no longer supports. */
  ghost predicate StaleAt(c: Config, pool: Pool, led: Ledger, r: Req, ids: seq<nat>, k: nat)
    requires k < |ids|
  {
    PlanOk(c, pool, led, r, ids[..k]) && InReach(c, pool, r, ids, k) && !PlanEntry(c, pool, led, r, ids, k)
  }

  ghost predicate Stale(c: Config, pool: Pool, led: Ledger, r: Req, ids: seq<nat>) {
    exists k: nat :: k < |ids| && StaleAt(c, pool, led, r, ids, k)
  }

  lemma PlanTake(c: Config, pool: Pool, led: Ledger, r: Req, ids: seq<nat>, k: nat)
    requires k <= |ids|
    ensures PlanOk(c, pool, led, r, ids[..k]) <==> forall j: nat :: j < k ==> PlanEntry(c, pool, led, r, ids, j)
  {
    hide PlanEntry;
    forall j: nat | j < k
      ensures PlanEntry(c, pool, led, r, ids[..k], j) <==> PlanEntry(c, pool, led, r, ids, j)
    {
      SameEntry(c, pool, led, r, ids, k, j);
    }
  }

  lemma SameEntry(c: Config, pool: Pool, led: Ledger, r: Req, ids: seq<nat>, k: nat, j: nat)
    requires j < k <= |ids|
    ensures PlanEntry(c, pool, led, r, ids[..k], j) <==> PlanEntry(c, pool, led, r, ids, j)
  {
    hide Extends, BlockHash;
    assert ids[..k][..j] == ids[..j];
  }

  /** The last block but one ends inside the tokens. */
  lemma ReachEnds(c: Config, r: Req, i: nat)
    requires i + 1 < r.NumBlocks(c.B)
    ensures Start(i + 1, c.B) <= |r.tokens|
  {
    CeilBounds(|r.tokens|, c.B);
    StartMono(i + 1, r.NumBlocks(c.B) - 1, c.B);
  }

  /** The check of one entry, behind a sound plan, accepts exactly what continues it. */
  lemma EntryExact(c: Config, pool: Pool, reqs: seq<Req>, led: Ledger, id: nat, ids: seq<nat>, k: nat)
    requires World(c, pool, reqs, led) && id < |reqs| && Settled(c, reqs[id])
    requires k < |ids| && PlanOk(c, pool, led, reqs[id], ids[..k]) && NoDup(ids)
    ensures var res := EntryError(c, pool, reqs[id], ids, k);
            if PlanEntry(c, pool, led, reqs[id], ids, k) then res == Ok(())
            else res == Err(if InReach(c, pool, reqs[id], ids, k) then StalePlan else AssertionFailed)
  {
    hide BlockHash, PlanOk, SharesOk, RefsOk;
    var r := reqs[id];
    var i := |r.table| + k;
    LastHistory(c, pool, reqs, led, id, ids[..k]);
    if InReach(c, pool, r, ids, k) {
      ReachEnds(c, r, i);
      var parent := LineageOf(pool.pages, Previous(r.table, ids[..k])).value;
      if Extends(c, pool, r, i, parent, ids[k]) {
        ExtensionMeaning(c, pool, led, r, i, parent, ids[k]);
        NotMine(c, pool, reqs, led, id, ids[k], i);
        assert ids[k] !in ids[..k];
      }
    }
  }

  /** A page that stands for a longer prefix than the table covers is not in the table. */
  lemma NotMine(c: Config, pool: Pool, reqs: seq<Req>, led: Ledger, id: nat, b: nat, i: nat)
    requires World(c, pool, reqs, led) && id < |reqs| && Settled(c, reqs[id])
    requires b < |pool.pages| && i >= |reqs[id].table| && Start(i + 1, c.B) <= |reqs[id].tokens|
    requires Hist(led, pool.pages[b].lin) == reqs[id].tokens[..Start(i + 1, c.B)]
    ensures b !in reqs[id].table
  {
    hide SharesOk, RefsOk, KeysOk, PagesOk;
    var r := reqs[id];
    assert TableOk(c, pool.pages, led, reqs[id]);
    forall j: nat | j < |r.table|
      ensures r.table[j] != b
    {
      assert EntryOk(c, pool.pages, led, r, j);
      StartMono(j + 1, |r.table|, c.B);
      StartMono(j + 1, i, c.B);
      StartMono(i, i + 1, c.B);
    }
  }

  lemma {:induction false} PlanErrorExact(c: Config, pool: Pool, reqs: seq<Req>, led: Ledger, id: nat, ids: seq<nat>,
                                          k: nat)
    requires World(c, pool, reqs, led) && id < |reqs| && Settled(c, reqs[id])
    requires k <= |ids| && PlanOk(c, pool, led, reqs[id], ids[..k]) && NoDup(ids)
    ensures var res := PlanError(c, pool, reqs[id], ids, k);
            if PlanOk(c, pool, led, reqs[id], ids) then res == Ok(())
            else res == Err(if Stale(c, pool, led, reqs[id], ids) then StalePlan else AssertionFailed)
    decreases |ids| - k
  {
    hide World, EntryError, PlanEntry, Settled, InReach;
    PlanTake(c, pool, led, reqs[id], ids, k);
    PlanTake(c, pool, led, reqs[id], ids, |ids|);
    assert ids[..|ids|] == ids;
    if k < |ids| {
      EntryExact(c, pool, reqs, led, id, ids, k);
      if PlanEntry(c, pool, led, reqs[id], ids, k) {
        PlanTake(c, pool, led, reqs[id], ids, k + 1);
        PlanErrorExact(c, pool, reqs, led, id, ids, k + 1);
      } else {
        StaleIsHere(c, pool, led, reqs[id], ids, k);
      }
    }
  }

  /** There is only one place at which a plan can break. */
  lemma StaleIsHere(c: Config, pool: Pool, led: Ledger, r: Req, ids: seq<nat>, k: nat)
    requires k < |ids| && PlanOk(c, pool, led, r, ids[..k]) && !PlanEntry(c, pool, led, r, ids, k)
    ensures Stale(c, pool, led, r, ids) <==> InReach(c, pool, r, ids, k)
  {
    hide PlanEntry, InReach;
    if InReach(c, pool, r, ids, k) {
      assert StaleAt(c, pool, led, r, ids, k);
    }
    if Stale(c, pool, led, r, ids) {
      var j: nat :| j < |ids| && StaleAt(c, pool, led, r, ids, j);
      PlanTake(c, pool, led, r, ids, k);
      PlanTake(c, pool, led, r, ids, j);
    }
  }

  /** `claim_prefix` accepts exactly the plans that the cache supports now; of the others it calls those stale that once
      could have been plans, and the rest fail an assertion. */
  lemma ClaimExact(c: Config, pool: Pool, reqs: seq<Req>, led: Ledger, kv: Memory, id: nat, ids: seq<nat>)
    requires Consistent(c, pool, reqs, led, kv) && id < |reqs| && Settled(c, reqs[id])
    ensures var res := ClaimPrefix(c, pool, reqs[id], ids);
            && (res.Ok? <==> PlanOk(c, pool, led, reqs[id], ids))
            && (res.Err? ==>
                  res.error == if NoDup(ids) && Stale(c, pool, led, reqs[id], ids) then StalePlan else AssertionFailed)
  {
    hide PlanError, PlanEntry, ClaimedPrefixValid, StaleAt;
    if PlanOk(c, pool, led, reqs[id], ids) {
      ClaimPrefixOk(c, pool, reqs, led, kv, id, ids);
    } else {
      ClaimedPrefixHolds(c, pool, reqs, led, id);
      if NoDup(ids) {
        assert ids[..0] == [];
        PlanErrorExact(c, pool, reqs, led, id, ids, 0);
      }
    }
  }

  // ---------------------------------------------------------------- allocations

  lemma {:induction false} GrowCovers(c: Config, pool: Pool, r: Req, end: nat)
    requires Grow(c, pool, r, end).Ok?
    ensures r.Context() < end ==> |Grow(c, pool, r, end).value.1.table| >= Ceil(end, c.B)
    decreases end - r.Context()
  {
    hide BlockHash, LineageOf, CanonicalLineage, TakeFront;
    if r.Context() < end {
      var step := GrowStep(c, pool, r, end).value;
      DivStart(r.Context(), c.B);
      var i := r.Context() / c.B;
      if step.1.Context() < end {
        GrowCovers(c, step.0, step.1, end);
      } else {
        CeilUnique(end, c.B, i + 1);
      }
    }
  }

  lemma TakeFrontError(pool: Pool)
    ensures TakeFront(pool).Err? ==> TakeFront(pool).error == AssertionFailed
  {
  }

  lemma {:induction false} GrowError(c: Config, pool: Pool, r: Req, end: nat)
    ensures Grow(c, pool, r, end).Err? ==> Grow(c, pool, r, end).error == AssertionFailed
    decreases end - r.Context()
  {
    hide BlockHash, CanonicalLineage, TakeFront;
    if r.Context() < end {
      TakeFrontError(pool);
      var step := GrowStep(c, pool, r, end);
      if step.Ok? {
        DivStart(r.Context(), c.B);
        GrowError(c, step.value.0, step.value.1, end);
      }
    }
  }

  /** `may_append` succeeds exactly if there are as many free pages as `num_blocks_to_append` says. */
  lemma AppendExact(c: Config, pool: Pool, reqs: seq<Req>, led: Ledger, kv: Memory, id: nat, n: nat)
    requires Consistent(c, pool, reqs, led, kv) && id < |reqs| && reqs[id].newToks == 0
    requires n > 0 && reqs[id].cached + n <= |reqs[id].tokens|
    ensures var res := MayAppend(c, pool, reqs[id].(newToks := n));
            && (res.Ok? <==> NumBlocksToAppend(c, reqs[id], n) <= |pool.free|)
            && (res.Err? ==> res.error == AssertionFailed)
  {
    hide Consistent, Grow;
    var r := reqs[id];
    assert r.(newToks := n).(newToks := 0) == r;
    if NumBlocksToAppend(c, r, n) <= |pool.free| {
      var led' := MayAppendOk(c, pool, reqs, led, kv, id, n);
    } else if Grow(c, pool, r, r.cached + n).Ok? {
      GrowCovers(c, pool, r, r.cached + n);
      GrowTakesFront(c, pool, r, r.cached + n);
    } else {
      GrowError(c, pool, r, r.cached + n);
    }
  }

  /** `allocate_new` succeeds exactly if there are pages for all new tokens. */
  lemma AllocateExact(c: Config, pool: Pool, reqs: seq<Req>, led: Ledger, kv: Memory, id: nat, n: nat)
    requires Consistent(c, pool, reqs, led, kv) && id < |reqs| && Settled(c, reqs[id])
    ensures var res := AllocateNew(c, pool, reqs[id].(newToks := n));
            && (res.Ok? <==> reqs[id].cached + n <= |reqs[id].tokens| && Ceil(n, c.B) <= |pool.free|)
            && (res.Err? ==> res.error == AssertionFailed)
  {
    hide Consistent, Grow, ClaimedPrefixValid;
    if reqs[id].cached + n <= |reqs[id].tokens| && Ceil(n, c.B) <= |pool.free| {
      var led' := AllocateNewOk(c, pool, reqs, led, kv, id, n);
    }
  }

  /** Even with nothing to append, a started page that the table lacks is taken. */
  lemma AppendStarted(c: Config, pool: Pool, r: Req)
    requires r.newToks == 0 && r.cached % c.B != 0 && |r.table| == r.cached / c.B && r.cached <= |r.tokens|
    requires LineageOf(pool.pages, Last(r.table)).Ok? && TakeFront(pool).Ok?
    ensures var (pool', b) := TakeFront(pool).value;
            MayAppend(c, pool, r) == Ok((pool', r.(table := r.table + [b])))
  {
    hide LineageOf, BlockHash;
    DivStart(r.cached, c.B);
  }

  // ---------------------------------------------------------------- in any pool, consistent or not

  /** Page `b` carries block `i` of the request under this parent, is named by its hash, and is either free and unused
      or used and counted. */
  ghost predicate Carries(c: Config, pool: Pool, r: Req, i: nat, parent: Lineage, b: nat) {
    && Start(i + 1, c.B) <= |r.tokens| && b < |pool.pages|
    && var p := pool.pages[b];
    && p.hash == BlockHash(c, r.tokens, i) && p.tokens == r.Block(i, c.B) && p.parent == parent
    && p.hash in pool.owner && pool.owner[p.hash] == b
    && ((b in pool.free && b !in pool.used && p.refs == 0) || (b in pool.used && b !in pool.free && p.refs > 0))
  }

  /** The pages continue the table, each under the lineage of the one before. */
  ghost predicate Continues(c: Config, pool: Pool, r: Req, ids: seq<nat>) {
    forall k: nat {:trigger ids[k]} :: k < |ids| ==>
      var parent := LineageOf(pool.pages, Previous(r.table, ids[..k]));
      parent.Ok? && Carries(c, pool, r, |r.table| + k, parent.value, ids[k])
  }

  lemma ContinuesSnoc(c: Config, pool: Pool, r: Req, ids: seq<nat>, b: nat)
    requires Continues(c, pool, r, ids)
    requires var parent := LineageOf(pool.pages, Previous(r.table, ids));
             parent.Ok? && Carries(c, pool, r, |r.table| + |ids|, parent.value, b)
    ensures Continues(c, pool, r, ids + [b])
  {
    hide Carries, LineageOf, Previous;
    var t := ids + [b];
    assert t[..|ids|] == ids;
    forall k: nat | k < |t|
      ensures var parent := LineageOf(pool.pages, Previous(r.table, t[..k]));
              parent.Ok? && Carries(c, pool, r, |r.table| + k, parent.value, t[k])
    {
      if k < |ids| { assert t[..k] == ids[..k] && t[k] == ids[k]; }
    }
  }

  lemma {:induction false} FoundContinues(c: Config, pool: Pool, r: Req, stop: nat, matched: seq<nat>)
    requires Continues(c, pool, r, matched)
    ensures var res := MatchFrom(c, pool, r, |r.table| + |matched|, stop, matched);
            res.Ok? ==> Continues(c, pool, r, res.value)
    decreases stop - |matched|
  {
    hide Continues, LineageOf, BlockHash;
    var i := |r.table| + |matched|;
    if i < stop && Start(i + 1, c.B) <= |r.tokens| {
      var h := BlockHash(c, r.tokens, i);
      if h in pool.owner && pool.owner[h] < |pool.pages| {
        var b := pool.owner[h];
        var parent := LineageOf(pool.pages, Previous(r.table, matched));
        if parent.Ok? && Extends(c, pool, r, i, parent.value, b) && b !in r.table && b !in matched {
          ContinuesSnoc(c, pool, r, matched, b);
          FoundContinues(c, pool, r, stop, matched + [b]);
        }
      }
    }
  }

  lemma {:induction false} CheckedContinues(c: Config, pool: Pool, r: Req, ids: seq<nat>, k: nat)
    requires k <= |ids| && Continues(c, pool, r, ids[..k]) && PlanError(c, pool, r, ids, k).Ok?
    ensures Continues(c, pool, r, ids)
    decreases |ids| - k
  {
    hide Continues, LineageOf, BlockHash;
    if k < |ids| {
      assert EntryError(c, pool, r, ids, k).Ok?;
      ContinuesSnoc(c, pool, r, ids[..k], ids[k]);
      assert ids[..k] + [ids[k]] == ids[..k + 1];
      CheckedContinues(c, pool, r, ids, k + 1);
    } else {
      assert ids[..k] == ids;
    }
  }

  /** Page `i` of the table is in use and carries the request's own block, under the lineage of the page before. */
  ghost predicate PageValidated(c: Config, pool: Pool, r: Req, i: nat)
    requires i < |r.table|
  {
    && r.table[i] < |pool.pages| && r.table[i] in pool.used && r.table[i] !in pool.free
    && Start(i + 1, c.B) <= |r.tokens|
    && var p := pool.pages[r.table[i]];
    && p.refs > 0 && p.hash == BlockHash(c, r.tokens, i) && p.tokens == r.Block(i, c.B)
    && p.lin.block != -1 && p.lin.gen != -1
    && LineageOf(pool.pages, Before(r.table, i)) == Ok(p.parent)
  }

  /** So are all of them, and nothing else is cached. */
  ghost predicate Validated(c: Config, pool: Pool, r: Req) {
    && r.cached == Start(|r.table|, c.B)
    && forall i: nat {:trigger PageValidated(c, pool, r, i)} :: i < |r.table| ==> PageValidated(c, pool, r, i)
  }

  lemma ValidPage(c: Config, pool: Pool, r: Req, i: nat)
    requires i < |r.table| && ClaimedPageValid(c, pool, r, i)
    ensures PageValidated(c, pool, r, i)
  {
    hide LineageOf;
  }

  lemma ValidIsValidated(c: Config, pool: Pool, r: Req)
    requires ClaimedPrefixValid(c, pool, r)
    ensures Validated(c, pool, r)
  {
    hide ClaimedPageValid, PageValidated;
    forall i: nat | i < |r.table|
      ensures PageValidated(c, pool, r, i)
    {
      ValidPage(c, pool, r, i);
    }
  }

  /** In any pool whatever: a lookup, a claim or an allocation gets through only for a validated table, and a lookup
      finds, and a claim takes, only pages that carry on from it. */
  lemma NothingUnchecked(c: Config, pool: Pool, r: Req, ids: seq<nat>)
    ensures MatchPrefix(c, pool, r).Ok? ==>
              Validated(c, pool, r) && Continues(c, pool, r, MatchPrefix(c, pool, r).value)
    ensures ClaimPrefix(c, pool, r, ids).Ok? ==>
              Validated(c, pool, r) && NoDup(ids) && Continues(c, pool, r, ids)
    ensures AllocateNew(c, pool, r).Ok? ==>
              Validated(c, pool, r) && r.Context() <= |r.tokens| && Ceil(r.newToks, c.B) <= |pool.free|
  {
    hide Validated, Continues, MatchFrom, PlanError, Grow, ClaimedPrefixValid;
    if ClaimedPrefixValid(c, pool, r) {
      ValidIsValidated(c, pool, r);
      NothingYet(c, pool, r);
      FoundContinues(c, pool, r, Max(|r.table|, r.NumBlocks(c.B) - 1), []);
      if PlanError(c, pool, r, ids, 0).Ok? {
        assert ids[..0] == [];
        CheckedContinues(c, pool, r, ids, 0);
      }
    }
  }

  lemma NothingYet(c: Config, pool: Pool, r: Req)
    ensures Continues(c, pool, r, [])
  {
  }

  /** `may_append` writes on into a started page only if that page has not been published. */
  lemma StartedUnpublished(c: Config, pool: Pool, r: Req, i: nat)
    requires Start(i, c.B) < r.cached < Start(i + 1, c.B) && i < |r.table| && MayAppend(c, pool, r).Ok?
    ensures r.table[i] < |pool.pages| && !pool.pages[r.table[i]].Published()
  {
    hide LineageOf, BlockHash, CanonicalLineage;
    DivUnique(r.cached, c.B, i);
    if r.newToks > 0 {
      assert GrowStep(c, pool, r.(newToks := 0), r.Context()).Ok?;
    }
  }

  lemma {:induction false} ReleasableUsed(pool: Pool, table: seq<nat>, k: nat)
    requires AllBelow(table, |pool.pages|) && NoDup(table) && CanRelease(pool, table) && k < |table|
    ensures pool.pages[table[k]].refs == 1 ==> table[k] in pool.used
    decreases |table|
  {
    var n := |table| - 1;
    if k < n {
      ReleasableUsed(ReleasePage(pool, table[n]), table[..n], k);
    }
  }

  /** `deallocate` gets through only if every page that loses its last reference was among the used ones. */
  lemma ReleasedWereUsed(c: Config, pool: Pool, r: Req)
    requires NoDup(r.table) && Deallocate(pool, r).Ok?
    ensures forall k: nat :: k < |r.table| ==>
              && r.table[k] < |pool.pages|
              && (pool.pages[r.table[k]].refs == 1 ==> r.table[k] in pool.used)
  {
    hide CanRelease, ReleasePages;
    forall k: nat | k < |r.table|
      ensures r.table[k] < |pool.pages| && (pool.pages[r.table[k]].refs == 1 ==> r.table[k] in pool.used)
    {
      ReleasableUsed(pool, r.table, k);
    }
  }
}
