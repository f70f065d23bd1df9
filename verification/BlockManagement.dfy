/** The block manager as an object: pages, free deque, used set and hash map updated in place. */
module BlockManagement {
  import opened Arith
  import opened Seqs
  import opened Requests
  import opened Pages
  import opened Sequences

  class Block {
    const blockId: nat
    var refCount: int
    var generation: nat
    var hash: int
    var lineage: Lineage            // lineage_block_id, lineage_generation
    var parent: Lineage             // parent_block_id, parent_generation
    var tokenIds: seq<Token>

    function View(): Page
      reads this
    {
      Page(refCount, generation, hash, lineage, parent, tokenIds)
    }

    constructor (blockId: nat)
      ensures this.blockId == blockId && View() == BLANK
    {
      this.blockId := blockId;
      refCount, generation, hash, lineage, parent, tokenIds := 0, 0, -1, ROOT, ROOT, [];
    }

    method Update(hash: int, tokens: seq<Token>, lin: Lineage, parent: Lineage)
      modifies this
      ensures View() == old(View()).(hash := hash, tokens := tokens, lin := lin, parent := parent)
    {
      this.hash, this.lineage, this.parent, this.tokenIds := hash, lin, parent, tokens;
    }

    method Reset()
      modifies this
      ensures View() == Page(1, old(generation) + 1, -1, Lineage(blockId, old(generation) + 1), ROOT, [])
    {
      refCount := 1;
      generation := generation + 1;
      hash := -1;
      lineage := Lineage(blockId, generation);
      parent := ROOT;
      tokenIds := [];
    }
  }

  class BlockManager {
    const config: Config            // block_size and compute_block_hash
    const blocks: seq<Block>
    var freeBlockIds: seq<nat>
    var usedBlockIds: set<nat>
    var hashToBlockId: map<int, nat>

    ghost predicate Valid() {
      forall i: nat :: i < |blocks| ==> blocks[i].blockId == i
    }

    ghost function PageViews(): (ps: seq<Page>)
      reads blocks
      ensures |ps| == |blocks|
      ensures forall i: nat :: i < |blocks| ==> ps[i] == blocks[i].View()
    {
      seq(|blocks|, i requires 0 <= i < |blocks| reads blocks => blocks[i].View())
    }

    /** The pool as a value. */
    ghost function View(): Pool
      reads this, blocks
    {
      Pool(PageViews(), freeBlockIds, usedBlockIds, hashToBlockId)
    }

    twostate lemma PageChanged(b: nat)
      requires Valid() && b < |blocks|
      requires forall i: nat :: i < |blocks| && i != b ==> blocks[i].View() == old(blocks[i].View())
      ensures PageViews() == old(PageViews())[b := blocks[b].View()]
    {
    }

    constructor (config: Config)
      ensures Valid() && this.config == config && View() == InitPool(config)
      ensures fresh(blocks)
    {
      this.config := config;
      var bs: seq<Block> := [];
      var ids: seq<nat> := [];
      while |bs| < config.numBlocks
        invariant |ids| == |bs| <= config.numBlocks
        invariant forall i: nat :: i < |bs| ==>
                    fresh(bs[i]) && bs[i].blockId == i && bs[i].View() == BLANK && ids[i] == i
        decreases config.numBlocks - |bs|
      {
        var b := new Block(|bs|);
        ids := ids + [|bs|];
        bs := bs + [b];
      }
      blocks := bs;
      freeBlockIds, usedBlockIds, hashToBlockId := ids, {}, map[];
      new;
      assert PageViews() == InitPool(config).pages;
      assert freeBlockIds == InitPool(config).free;
    }

    // -------------------------------------------------------------- single pages

    method GetLineage(b: int) returns (r: Result<Lineage>)
      ensures r == LineageOf(View().pages, b)
    {
      if b == -1 {
        return Ok(ROOT);
      }
      if !(0 <= b < |blocks|) {
        return Err(AssertionFailed);
      }
      var block := blocks[b];
      if block.hash == -1 || block.lineage.block == -1 || block.lineage.gen == -1 {
        return Err(AssertionFailed);
      }
      return Ok(block.lineage);
    }

    method PublishFullBlock(block: Block, h: int, tokens: seq<Token>, parent: Lineage)
      requires Valid() && block.blockId < |blocks| && blocks[block.blockId] == block
      modifies this`hashToBlockId, block
      ensures View() == Publish(old(View()), block.blockId, h, tokens, parent)
    {
      var lin := Lineage(block.blockId, block.generation);
      if h in hashToBlockId && hashToBlockId[h] < |blocks| {
        var ownerId := hashToBlockId[h];
        var owner := blocks[ownerId];
        var isFree, isUsed := ownerId in freeBlockIds, ownerId in usedBlockIds;
        var isResident := isFree != isUsed && ((isFree && owner.refCount == 0) || (isUsed && owner.refCount > 0));
        if isResident && owner.hash == h && owner.tokenIds == tokens && owner.parent == parent {
          lin := owner.lineage;
        }
      }
      assert lin == CanonicalLineage(View(), block.blockId, h, tokens, parent);
      block.Update(h, tokens, lin, parent);
      hashToBlockId := hashToBlockId[h := block.blockId];
      PageChanged(block.blockId);
    }

    method AllocateBlock(b: nat) returns (r: Result<Block>)
      requires Valid()
      modifies this, blocks
      ensures r.Ok? <==> Allocate(old(View()), b).Ok?
      ensures r.Err? ==> r.error == Allocate(old(View()), b).error
      ensures r.Ok? ==> b < |blocks| && r.value == blocks[b] && View() == Allocate(old(View()), b).value
    {
      if b >= |blocks| || blocks[b].refCount != 0 || b !in freeBlockIds {
        return Err(AssertionFailed);
      }
      var block := blocks[b];
      if block.hash in hashToBlockId && hashToBlockId[block.hash] == b {
        hashToBlockId := hashToBlockId - {block.hash};
      }
      block.Reset();
      freeBlockIds := Remove(freeBlockIds, b);
      usedBlockIds := usedBlockIds + {b};
      PageChanged(b);
      return Ok(block);
    }

    method ClaimCachedFreeBlock(b: nat) returns (r: Result<()>)
      requires Valid() && b < |blocks|
      modifies this`freeBlockIds, this`usedBlockIds, blocks
      ensures r.Ok? <==> old(blocks[b].refCount == 0 && b in freeBlockIds && b !in usedBlockIds)
      ensures r.Ok? ==> View() == ClaimPage(old(View()), b)
    {
      var block := blocks[b];
      if block.refCount != 0 || b !in freeBlockIds || b in usedBlockIds {
        return Err(AssertionFailed);
      }
      block.refCount := 1;
      freeBlockIds := Remove(freeBlockIds, b);
      usedBlockIds := usedBlockIds + {b};
      PageChanged(b);
      return Ok(());
    }

    // -------------------------------------------------------------- counting

    method NumBlocksRequiredForAdmission(ids: seq<nat>, n: nat) returns (r: Result<nat>)
      ensures r.Ok? <==> NoDup(ids)
      ensures r.Ok? ==> r.value == RequiredForAdmission(config, View(), ids, n)
    {
      if !NoDup(ids) {
        return Err(AssertionFailed);
      }
      var count, k := 0, 0;
      while k < |ids|
        invariant 0 <= k <= |ids|
        invariant count == CachedFree(View(), ids[..k])
      {
        FreeAmongSnoc(View(), ids, k);
        if ids[k] in freeBlockIds {
          count := count + 1;
        }
        k := k + 1;
      }
      assert ids[..k] == ids;
      return Ok(count + Ceil(n, config.B));
    }

    lemma FreeAmongSnoc(pool: Pool, ids: seq<nat>, k: nat)
      requires NoDup(ids) && k < |ids|
      ensures CachedFree(pool, ids[..k + 1]) == CachedFree(pool, ids[..k]) + if ids[k] in pool.free then 1 else 0
    {
      assert ids[..k + 1] == ids[..k] + [ids[k]];
      assert FreeAmong(pool, ids[..k + 1]) == FreeAmong(pool, ids[..k]) + if ids[k] in pool.free then {ids[k]} else {};
      assert ids[k] !in ids[..k];
    }

    // -------------------------------------------------------------- lookups

    method ValidateClaimedPrefix(s: Sequence) returns (ok: bool)
      requires s.Valid() && s.config == config
      ensures ok == ClaimedPrefixValid(config, View(), s.View())
    {
      if s.numCachedTokens != Start(|s.blockTable|, config.B) {
        return false;
      }
      var i := 0;
      while i < |s.blockTable|
        invariant 0 <= i <= |s.blockTable|
        invariant forall j :: 0 <= j < i ==> ClaimedPageValid(config, View(), s.View(), j)
      {
        var b := s.blockTable[i];
        var valid := b < |blocks| && Start(i + 1, config.B) <= s.numTokens;
        if valid {
          s.HashAt(i);
          var block := blocks[b];
          var parent := GetLineage(Before(s.blockTable, i));
          valid := && parent.Ok?
                   && b in usedBlockIds && b !in freeBlockIds && block.refCount > 0
                   && block.hash == s.blockHashes[i]
                   && block.tokenIds == Slice(s.tokenIds, Start(i, config.B), Start(i + 1, config.B))
                   && block.lineage.block != -1 && block.lineage.gen != -1
                   && block.parent == parent.value;
        }
        assert valid == ClaimedPageValid(config, View(), s.View(), i);
        if !valid {
          return false;
        }
        i := i + 1;
      }
      return true;
    }

    /** One round of `match_prefix`: the page that extends what is matched so far, if there is one. */
    method FindNext(s: Sequence, i: nat, matched: seq<nat>) returns (r: Result<seq<nat>>)
      requires s.Valid() && s.config == config && Start(i + 1, config.B) <= s.numTokens
      ensures r == MatchNext(config, View(), s.View(), i, matched)
    {
      s.HashAt(i);
      var h := s.blockHashes[i];
      if h !in hashToBlockId || hashToBlockId[h] >= |blocks| {
        return Ok([]);
      }
      var b := hashToBlockId[h];
      var block := blocks[b];
      var parent :- GetLineage(Previous(s.blockTable, matched));
      var isFree, isUsed := b in freeBlockIds, b in usedBlockIds;
      if || block.hash != h
         || block.tokenIds != Slice(s.tokenIds, Start(i, config.B), Start(i + 1, config.B))
         || block.parent != parent
         || b in s.blockTable || b in matched
         || isFree == isUsed
         || (isFree && block.refCount != 0)
         || (isUsed && block.refCount <= 0)
      {
        return Ok([]);
      }
      return Ok([b]);
    }

    /** `match_prefix` */
    method FindPrefix(s: Sequence) returns (r: Result<seq<nat>>)
      requires s.Valid() && s.config == config
      ensures r == MatchPrefix(config, View(), s.View())
    {
      hide MatchNext, ClaimedPrefixValid, BlockHashes, MatchFrom;
      var valid := ValidateClaimedPrefix(s);
      if !valid {
        return Err(AssertionFailed);
      }
      var i := |s.blockTable|;
      var stop := Max(i, Ceil(s.numTokens, config.B) - 1);
      var matched: seq<nat> := [];
      while i < stop
        invariant |s.blockTable| <= i
        invariant MatchFrom(config, View(), s.View(), i, stop, matched) == MatchPrefix(config, View(), s.View())
        decreases stop - i
      {
        MatchUnfold(config, View(), s.View(), i, stop, matched);
        if Start(i + 1, config.B) > s.numTokens {
          return Ok(matched);
        }
        var found := FindNext(s, i, matched);
        if found.Err? {
          return found;
        }
        if found.value == [] {
          return Ok(matched);
        }
        matched := matched + found.value;
        i := i + 1;
      }
      MatchUnfold(config, View(), s.View(), i, stop, matched);
      return Ok(matched);
    }

    // -------------------------------------------------------------- claims

    /** The checks of `claim_prefix` on one page; what it remembers of the page is whether it is free. */
    method CheckEntry(s: Sequence, ids: seq<nat>, k: nat) returns (r: Result<bool>)
      requires s.Valid() && s.config == config && k < |ids|
      ensures var spec := EntryError(config, View(), s.View(), ids, k);
              (r.Ok? <==> spec.Ok?) && (r.Err? ==> r.error == spec.error)
      ensures r.Ok? ==> ids[k] < |blocks| && Resident(View(), ids[k]) && (r.value <==> ids[k] in freeBlockIds)
    {
      var b, i := ids[k], |s.blockTable| + k;
      if i >= Ceil(s.numTokens, config.B) - 1 || b >= |blocks| || Start(i + 1, config.B) > s.numTokens {
        return Err(AssertionFailed);
      }
      var parent := GetLineage(Previous(s.blockTable, ids[..k]));
      if parent.Err? {
        return Err(parent.error);
      }
      s.HashAt(i);
      var h := s.blockHashes[i];
      if h !in hashToBlockId || hashToBlockId[h] != b {
        return Err(StalePlan);
      }
      var block := blocks[b];
      var isFree, isUsed := b in freeBlockIds, b in usedBlockIds;
      if || isFree == isUsed
         || block.hash != h
         || block.tokenIds != Slice(s.tokenIds, Start(i, config.B), Start(i + 1, config.B))
         || block.parent != parent.value
         || !((isFree && block.refCount == 0) || (isUsed && block.refCount > 0))
      {
        return Err(StalePlan);
      }
      return Ok(isFree);
    }

    method CheckPlan(s: Sequence, ids: seq<nat>) returns (r: Result<seq<bool>>)
      requires s.Valid() && s.config == config
      ensures var spec := PlanError(config, View(), s.View(), ids, 0);
              (r.Ok? <==> spec.Ok?) && (r.Err? ==> r.error == spec.error)
      ensures r.Ok? ==> |r.value| == |ids| && forall j: nat :: j < |ids| ==>
                ids[j] < |blocks| && Resident(View(), ids[j]) && (r.value[j] <==> ids[j] in freeBlockIds)
    {
      hide EntryError, Resident;
      var claims: seq<bool> := [];
      while |claims| < |ids|
        invariant |claims| <= |ids|
        invariant forall j: nat :: j < |claims| ==>
                    ids[j] < |blocks| && Resident(View(), ids[j]) && (claims[j] <==> ids[j] in freeBlockIds)
        invariant PlanError(config, View(), s.View(), ids, |claims|) == PlanError(config, View(), s.View(), ids, 0)
        decreases |ids| - |claims|
      {
        var claim := CheckEntry(s, ids, |claims|);
        if claim.Err? {
          return Err(claim.error);
        }
        claims := claims + [claim.value];
      }
      return Ok(claims);
    }

    /** Claiming one page leaves every other planned page in the pool it was in. */
    lemma StillResident(pool: Pool, ids: seq<nat>, k: nat, j: nat)
      requires NoDup(ids) && AllBelow(ids, |pool.pages|) && k < j < |ids|
      requires Resident(pool, ids[j])
      ensures Resident(ClaimPage(pool, ids[k]), ids[j])
      ensures ids[j] in ClaimPage(pool, ids[k]).free <==> ids[j] in pool.free
    {
      RemoveOther(pool.free, ids[k], ids[j]);
    }

    lemma {:induction false} RemoveOther(s: seq<nat>, x: nat, y: nat)
      requires x != y
      ensures y in Remove(s, x) <==> y in s
    {
      if s != [] && s[0] != x {
        RemoveOther(s[1..], x, y);
      }
    }

    /** One round of the claims: a cached free page is taken as it is, a used one gains a reference. */
    method ClaimOne(b: nat, isFree: bool) returns (r: Result<()>)
      requires Valid() && b < |blocks| && Resident(View(), b) && (isFree <==> b in freeBlockIds)
      modifies this`freeBlockIds, this`usedBlockIds, blocks
      ensures r.Ok? && View() == ClaimPage(old(View()), b)
    {
      if isFree {
        r := ClaimCachedFreeBlock(b);
      } else {
        blocks[b].refCount := blocks[b].refCount + 1;
        PageChanged(b);
        r := Ok(());
      }
    }

    ghost predicate Claimable(ids: seq<nat>, claims: seq<bool>, from: nat)
      reads this, blocks
    {
      && NoDup(ids) && AllBelow(ids, |blocks|) && |claims| == |ids|
      && forall j: nat :: from <= j < |ids| ==> Resident(View(), ids[j]) && (claims[j] <==> ids[j] in freeBlockIds)
    }

    method ClaimAll(s: Sequence, ids: seq<nat>, claims: seq<bool>)
      requires Valid() && Claimable(ids, claims, 0)
      modifies this`freeBlockIds, this`usedBlockIds, blocks, s`blockTable, s`numCachedTokens
      ensures (View(), s.View()) == ClaimPages(s.config, old(View()), old(s.View()), ids)
    {
      hide Resident, ClaimPage;
      var k := 0;
      assert ids[0..] == ids;
      while k < |ids|
        invariant 0 <= k <= |ids|
        invariant Claimable(ids, claims, k)
        invariant ClaimPages(s.config, View(), s.View(), ids[k..])
                  == ClaimPages(s.config, old(View()), old(s.View()), ids)
      {
        var b := ids[k];
        assert ids[k..][0] == b && ids[k..][1..] == ids[k + 1..];
        ghost var before := View();
        var claimed := ClaimOne(b, claims[k]);
        forall j: nat | k < j < |ids|
          ensures Resident(View(), ids[j]) && (claims[j] <==> ids[j] in View().free)
        {
          StillResident(before, ids, k, j);
        }
        s.blockTable := s.blockTable + [b];
        s.numCachedTokens := s.numCachedTokens + s.config.B;
        k := k + 1;
      }
      assert ids[k..] == [];
    }

    /** `claim_prefix` */
    method ClaimPlan(s: Sequence, ids: seq<nat>) returns (r: Result<()>)
      requires Valid() && s.Valid() && s.config == config
      modifies this`freeBlockIds, this`usedBlockIds, blocks, s`blockTable, s`numCachedTokens
      ensures s.Valid()
      ensures Agrees(r, ClaimPrefix(config, old(View()), old(s.View()), ids), View(), s.View())
    {
      hide ClaimedPrefixValid, PlanError, Resident, ClaimPages;
      var valid := ValidateClaimedPrefix(s);
      if !valid || !NoDup(ids) {
        return Err(AssertionFailed);
      }
      var claims :- CheckPlan(s, ids);
      ClaimAll(s, ids, claims);
      return Ok(());
    }

    // -------------------------------------------------------------- allocation

    /** `free_block_ids[0]`, allocated. */
    method TakeFrontBlock() returns (r: Result<nat>)
      requires Valid()
      modifies this, blocks
      ensures var spec := TakeFront(old(View()));
              if spec.Ok? then r == Ok(spec.value.1) && View() == spec.value.0 && r.value < |blocks|
                  else r == Err(spec.error)
    {
      hide Allocate;
      if freeBlockIds == [] {
        return Err(AssertionFailed);
      }
      var b := freeBlockIds[0];
      var block :- AllocateBlock(b);
      return Ok(b);
    }

    /** One round of `allocate_new`: take the front page and publish it if this step fills it. */
    method AllocateRound(s: Sequence, i: nat, end: nat) returns (r: Result<()>)
      requires Valid() && s.Valid() && s.config == config
      requires i == Start(|s.blockTable|, config.B) && i / config.B == |s.blockTable|
      requires s.numCachedTokens <= i < end <= s.numTokens
      modifies this, blocks, s`blockTable
      ensures s.Valid()
      ensures RoundAgrees(r, GrowStep(config, old(View()), AtContext(old(s.View()), i), end), View(), s.View())
      ensures r.Ok? ==> |s.blockTable| == old(|s.blockTable|) + 1
    {
      hide Publish, TakeFront, BlockHash, BlockHashes, GrowStep, LineageOf;
      ghost var k, pool, req := |s.blockTable|, View(), AtContext(s.View(), i);
      GrowFresh(config, pool, req, end, k);
      var parent :- GetLineage(Last(s.blockTable));
      var tokens := Slice(s.tokenIds, i, Min(i + config.B, end));
      var h := -1;
      if |tokens| == config.B {
        s.HashAt(|s.blockTable|);
        h := s.blockHashes[|s.blockTable|];
      }
      var b :- TakeFrontBlock();
      if h != -1 {
        PublishFullBlock(blocks[b], h, tokens, parent);
      }
      s.blockTable := s.blockTable + [b];
      return Ok(());
    }

    /** `allocate_new` */
    method AllocateNewBlocks(s: Sequence) returns (r: Result<()>)
      requires Valid() && s.Valid() && s.config == config
      modifies this, blocks, s`blockTable
      ensures s.Valid()
      ensures Agrees(r, AllocateNew(config, old(View()), old(s.View())), View(), s.View())
    {
      hide ClaimedPrefixValid, GrowStep, Grow, BlockHashes;
      var valid := ValidateClaimedPrefix(s);
      var end := s.numCachedTokens + s.numNewTokens;
      if !valid || end > s.numTokens || Ceil(s.numNewTokens, config.B) > |freeBlockIds| {
        return Err(AssertionFailed);
      }
      ghost var spec := Grow(config, View(), s.View().(newToks := 0), end);
      ValidPrefixCached(config, View(), s.View());
      var i := s.numCachedTokens;
      while i < end
        invariant s.Valid() && s.numCachedTokens <= i == Start(|s.blockTable|, config.B)
        invariant Grow(config, View(), AtContext(s.View(), Min(i, end)), end) == spec
        decreases end - i
      {
        DivUnique(i, config.B, |s.blockTable|);
        ghost var pool, req := View(), AtContext(s.View(), i);
        var round := AllocateRound(s, i, end);
        if round.Err? {
          GrowError(config, pool, req, end, round.error);
          return round;
        }
        i := i + config.B;
        GrowRound(config, pool, req, end, View(), s.View());
      }
      GrowUnfold(config, View(), AtContext(s.View(), end), end);
      return Ok(());
    }

    /** One round of `may_append`: go on in the page at hand, or take the front page; publish it if this step fills
        it. */
    method AppendRound(s: Sequence, k: nat, end: nat) returns (r: Result<()>)
      requires Valid() && s.Valid() && s.config == config
      requires Start(k, config.B) < end && s.numCachedTokens <= end
      requires Max(Start(k, config.B), s.numCachedTokens) / config.B == k
      modifies this, blocks, s`blockTable
      ensures s.Valid()
      ensures RoundAgrees(r, GrowStep(config, old(View()), AtContext(old(s.View()), Start(k, config.B)), end), View(),
                          s.View())
    {
      hide Publish, TakeFront, BlockHash, BlockHashes;
      if k > |s.blockTable| {
        return Err(AssertionFailed);
      }
      var i := Start(k, config.B);
      var parent :- GetLineage(Before(s.blockTable, k));
      var tokens := Slice(s.tokenIds, i, Min(i + config.B, end));
      var starting := k == |s.blockTable|;
      if !starting && (s.blockTable[k] >= |blocks| || blocks[s.blockTable[k]].hash != -1) {
        return Err(AssertionFailed);
      }
      var b: nat;
      if !starting {
        b := s.blockTable[k];
      } else {
        b :- TakeFrontBlock();
        s.blockTable := s.blockTable + [b];
      }
      if |tokens| == config.B {
        s.HashAt(k);
        PublishFullBlock(blocks[b], s.blockHashes[k], tokens, parent);
      }
      return Ok(());
    }

    /** `may_append` */
    method AppendBlocks(s: Sequence) returns (r: Result<()>)
      requires Valid() && s.Valid() && s.config == config
      modifies this, blocks, s`blockTable
      ensures s.Valid()
      ensures Agrees(r, MayAppend(config, old(View()), old(s.View())), View(), s.View())
    {
      hide GrowStep, BlockHashes, AppendSoFar, MayAppend;
      var end := s.numCachedTokens + s.numNewTokens;
      var k: nat := s.numCachedTokens / config.B;
      AppendStart(config, View(), s.View());
      while Start(k, config.B) < end
        invariant s.Valid()
        invariant AppendSoFar(config, old(View()), old(s.View()), k, View(), s.View())
        decreases end - Start(k, config.B)
      {
        AppendPage(config, old(View()), old(s.View()), k, View(), s.View());
        ghost var pool, req := View(), s.View();
        var round := AppendRound(s, k, end);
        if round.Err? {
          AppendError(config, old(View()), old(s.View()), k, pool, req, round.error);
          return round;
        }
        AppendNext(config, old(View()), old(s.View()), k, pool, req, View(), s.View());
        k := k + 1;
      }
      AppendEnd(config, old(View()), old(s.View()), k, View(), s.View());
      return Ok(());
    }

    /** `num_blocks_to_append` */
    method CountToAppend(s: Sequence, n: nat) returns (count: nat)
      ensures count == NumBlocksToAppend(config, s.View(), n)
    {
      var target := Ceil(s.numCachedTokens + n, config.B);
      count := Max(target - |s.blockTable|, 0);
    }

    // -------------------------------------------------------------- release

    method DeallocateBlock(b: nat) returns (r: Result<()>)
      requires b < |blocks|
      modifies this`usedBlockIds, this`freeBlockIds
      ensures r.Ok? <==> blocks[b].refCount == 0 && b in old(usedBlockIds)
      ensures r.Ok? ==> usedBlockIds == old(usedBlockIds) - {b} && freeBlockIds == old(freeBlockIds) + [b]
      ensures r.Err? ==> r.error == AssertionFailed
    {
      if blocks[b].refCount != 0 || b !in usedBlockIds {
        return Err(AssertionFailed);
      }
      usedBlockIds := usedBlockIds - {b};
      freeBlockIds := freeBlockIds + [b];
      return Ok(());
    }

    /** One round of `deallocate`. */
    method ReleaseOne(b: nat) returns (r: Result<()>)
      requires Valid() && b < |blocks|
      modifies this`usedBlockIds, this`freeBlockIds, blocks
      ensures r.Ok? <==> old(blocks[b].refCount == 1 ==> b in usedBlockIds)
      ensures r.Ok? ==> View() == ReleasePage(old(View()), b)
      ensures r.Err? ==> r.error == AssertionFailed
    {
      blocks[b].refCount := blocks[b].refCount - 1;
      PageChanged(b);
      if blocks[b].refCount == 0 {
        r := DeallocateBlock(b);
      } else {
        r := Ok(());
      }
    }

    /** `deallocate` */
    method DeallocateSequence(s: Sequence) returns (r: Result<()>)
      requires Valid() && s.Valid()
      modifies this`usedBlockIds, this`freeBlockIds, blocks, s`blockTable, s`numCachedTokens, s`numNewTokens
      ensures s.Valid()
      ensures Agrees(r, Deallocate(old(View()), old(s.View())), View(), s.View())
    {
      hide ReleasePage, CanRelease, ReleasePages, BlockHashes;
      var k := |s.blockTable|;
      assert s.blockTable[..k] == s.blockTable;
      while k > 0
        invariant 0 <= k <= |s.blockTable| && s.View() == old(s.View())
        invariant forall j :: k <= j < |s.blockTable| ==> s.blockTable[j] < |blocks|
        invariant AllBelow(s.blockTable, |blocks|) ==>
                    && ReleasePages(View(), s.blockTable[..k]) == ReleasePages(old(View()), s.blockTable)
                    && CanRelease(View(), s.blockTable[..k]) == CanRelease(old(View()), s.blockTable)
      {
        k := k - 1;
        if s.blockTable[k] >= |blocks| {
          assert !AllBelow(s.blockTable, |View().pages|);
          return Err(AssertionFailed);
        }
        ReleaseUnfold(View(), s.blockTable, k);
        var released := ReleaseOne(s.blockTable[k]);
        if released.Err? {
          return released;
        }
      }
      ReleaseNone(View(), s.blockTable);
      s.numCachedTokens := 0;
      s.numNewTokens := 0;
      s.blockTable := [];
      return Ok(());
    }
  }

  /** What one round of the lookup adds: one page, or nothing. */
  function MatchNext(c: Config, pool: Pool, r: Req, i: nat, matched: seq<nat>): Result<seq<nat>>
    requires Start(i + 1, c.B) <= |r.tokens|
  {
    var h := BlockHash(c, r.tokens, i);
    if h !in pool.owner || pool.owner[h] >= |pool.pages| then Ok([])
    else
      var b := pool.owner[h];
      var parent :- LineageOf(pool.pages, Previous(r.table, matched));
      if !Extends(c, pool, r, i, parent, b) || b in r.table || b in matched then Ok([]) else Ok([b])
  }

  lemma MatchUnfold(c: Config, pool: Pool, r: Req, i: nat, stop: nat, matched: seq<nat>)
    ensures MatchFrom(c, pool, r, i, stop, matched) ==
            if i >= stop || Start(i + 1, c.B) > |r.tokens| then Ok(matched)
            else
              var next := MatchNext(c, pool, r, i, matched);
              if next.Err? || next.value == [] then (if next.Err? then next else Ok(matched))
              else MatchFrom(c, pool, r, i + 1, stop, matched + next.value)
  {
    hide Extends, BlockHash, LineageOf, Previous;
  }

  lemma ReleaseUnfold(pool: Pool, table: seq<nat>, k: nat)
    requires k < |table|
    ensures AllBelow(table, |pool.pages|) ==>
              && ReleasePages(pool, table[..k + 1]) == ReleasePages(ReleasePage(pool, table[k]), table[..k])
              && (CanRelease(pool, table[..k + 1]) <==>
                    (pool.pages[table[k]].refs == 1 ==> table[k] in pool.used)
                        && CanRelease(ReleasePage(pool, table[k]), table[..k]))
  {
    assert table[..k + 1][..k] == table[..k];
  }

  lemma ReleaseNone(pool: Pool, table: seq<nat>)
    ensures ReleasePages(pool, table[..0]) == pool && CanRelease(pool, table[..0])
  {
  }

  lemma ValidPrefixCached(c: Config, pool: Pool, r: Req)
    ensures ClaimedPrefixValid(c, pool, r) ==> r.cached == Start(|r.table|, c.B)
  {
  }

  /** The context is in block `k` when the loop is. */
  lemma PageOfContext(k: nat, cached: nat, B: pos)
    requires k == cached / B || Start(k, B) >= cached
    ensures Max(Start(k, B), cached) / B == k
  {
    DivStart(cached, B);
    if Start(k, B) >= cached {
      DivUnique(Start(k, B), B, k);
    }
  }

  lemma GrowUnfold(c: Config, pool: Pool, r: Req, end: nat)
    ensures r.Context() >= end ==> Grow(c, pool, r, end) == Ok((pool, r))
  {
  }

  /** A round that agrees with its specification leaves the rest of the loop to do. */
  lemma GrowRound(c: Config, pool: Pool, r: Req, end: nat, pool': Pool, req: Req)
    requires r.Context() <= end && Start(r.Context() / c.B, c.B) < end
    requires RoundAgrees(Ok(()), GrowStep(c, pool, r, end), pool', req)
    ensures req.cached == r.cached
    ensures GrowStep(c, pool, r, end) == Ok((pool', AtContext(req, Min(Start(r.Context() / c.B + 1, c.B), end))))
    ensures r.Context() < end ==>
              Grow(c, pool, r, end) == Grow(c, pool', AtContext(req, Min(Start(r.Context() / c.B + 1, c.B), end)), end)
  {
    DivStart(r.Context(), c.B);
  }

  /** A round at the end of the table takes the front page. */
  lemma GrowFresh(c: Config, pool: Pool, r: Req, end: nat, k: nat)
    requires k == |r.table| == r.Context() / c.B && Start(k, c.B) < end && r.Context() <= end
    ensures var parent := LineageOf(pool.pages, Last(r.table));
            var taken := TakeFront(pool);
            var n := Min(Start(k + 1, c.B), end) - r.cached;
            && n >= 0
            && GrowStep(c, pool, r, end) ==
               if parent.Err? then Err(parent.error)
               else if taken.Err? then Err(taken.error)
               else if taken.value.1 >= |taken.value.0.pages| then Err(AssertionFailed)
               else if Start(k + 1, c.B) <= end && Start(k + 1, c.B) <= |r.tokens| then
                 Ok((Publish(taken.value.0, taken.value.1, BlockHash(c, r.tokens, k), r.Block(k, c.B), parent.value),
                     r.(table := r.table + [taken.value.1], newToks := n)))
               else Ok((taken.value.0, r.(table := r.table + [taken.value.1], newToks := n)))
  {
    hide Publish, TakeFront, BlockHash;
    DivStart(r.Context(), c.B);
  }

  /** The loop of `may_append` at page `k`: what is done, and that the rest of the loop is the rest of the
      specification. */
  ghost predicate AppendSoFar(c: Config, pool0: Pool, r0: Req, k: nat, pool: Pool, r: Req) {
    && r == r0.(table := r.table)
    && (k == r.cached / c.B || Start(k, c.B) >= r.cached)
    && (if r.newToks > 0 then Grow(c, pool, AtContext(r, Min(Start(k, c.B), r.Context())), r.Context())
        == MayAppend(c, pool0, r0)
        else if k == r.cached / c.B then pool == pool0 && r == r0
        else MayAppend(c, pool0, r0) == Ok((pool, r)))
  }

  lemma AppendStart(c: Config, pool: Pool, r: Req)
    ensures AppendSoFar(c, pool, r, r.cached / c.B, pool, r)
  {
    DivStart(r.cached, c.B);
  }

  lemma AppendPage(c: Config, pool0: Pool, r0: Req, k: nat, pool: Pool, r: Req)
    requires AppendSoFar(c, pool0, r0, k, pool, r)
    ensures Max(Start(k, c.B), r.cached) / c.B == k
    ensures r.cached == r0.cached && r.newToks == r0.newToks
  {
    PageOfContext(k, r.cached, c.B);
  }

  lemma AppendError(c: Config, pool0: Pool, r0: Req, k: nat, pool: Pool, r: Req, e: Error)
    requires AppendSoFar(c, pool0, r0, k, pool, r) && Start(k, c.B) < r.Context()
             && Max(Start(k, c.B), r.cached) / c.B == k
    requires GrowStep(c, pool, AtContext(r, Start(k, c.B)), r.Context()) == Err(e)
    ensures MayAppend(c, pool0, r0) == Err(e)
  {
    hide GrowStep;
    if r.newToks > 0 {
      GrowError(c, pool, AtContext(r, Start(k, c.B)), r.Context(), e);
    } else {
      DivStart(r.cached, c.B);
      assert AtContext(r, Start(k, c.B)) == r;
    }
  }

  lemma AppendNext(c: Config, pool0: Pool, r0: Req, k: nat, pool: Pool, r: Req, pool': Pool, r': Req)
    requires AppendSoFar(c, pool0, r0, k, pool, r) && Start(k, c.B) < r.Context()
             && Max(Start(k, c.B), r.cached) / c.B == k
    requires RoundAgrees(Ok(()), GrowStep(c, pool, AtContext(r, Start(k, c.B)), r.Context()), pool', r')
    requires r' == r.(table := r'.table)
    ensures AppendSoFar(c, pool0, r0, k + 1, pool', r')
  {
    hide GrowStep;
    var req := AtContext(r, Start(k, c.B));
    GrowRound(c, pool, req, r.Context(), pool', r');
    DivStart(r.cached, c.B);
    if r.newToks == 0 {
      assert req == r;
      assert AtContext(r', Min(Start(k + 1, c.B), r.Context())) == r';
    }
    if Start(k, c.B) < r.cached {
      StartUnique(k, r.cached / c.B, r.cached, c.B);
    } else {
      StartMono(k, k + 1, c.B);
    }
  }

  lemma AppendEnd(c: Config, pool0: Pool, r0: Req, k: nat, pool: Pool, r: Req)
    requires AppendSoFar(c, pool0, r0, k, pool, r) && Start(k, c.B) >= r.Context()
    ensures MayAppend(c, pool0, r0) == Ok((pool, r))
  {
    hide GrowStep;
    DivStart(r.cached, c.B);
    if r.newToks > 0 {
      assert AtContext(r, r.Context()) == r;
    } else if k == r.cached / c.B {
      assert r0.(newToks := 0) == r0;
    }
  }

  lemma GrowError(c: Config, pool: Pool, r: Req, end: nat, e: Error)
    requires r.Context() < end && Start(r.Context() / c.B, c.B) < end && GrowStep(c, pool, r, end) == Err(e)
    ensures Grow(c, pool, r, end) == Err(e)
  {
  }

  /** The request when `n` tokens of its context are in place. */
  function AtContext(r: Req, n: nat): Req {
    r.(newToks := Max(n - r.cached, 0))
  }

  /** The loop counts in its own variable what the specification counts in `newToks`. */
  ghost predicate RoundAgrees(r: Result<()>, spec: Result<(Pool, Req)>, pool: Pool, req: Req) {
    if spec.Ok? then r.Ok? && pool == spec.value.0 && req == spec.value.1.(newToks := req.newToks)
        else r == Err(spec.error)
  }

  /** An operation raised what its specification raises, or left pool and request as its specification says. */
  ghost predicate Agrees(r: Result<()>, spec: Result<(Pool, Req)>, pool: Pool, req: Req) {
    if spec.Ok? then r.Ok? && pool == spec.value.0 && req == spec.value.1 else r == Err(spec.error)
  }
}