/** One request as the engine holds it: tokens and page table updated in place, block hashes kept up to date. */
module Sequences {
  import opened Arith
  import opened Requests

  // ---------------------------------------------------------------- hashes, one token at a time

  function LastHash(hs: seq<int>): int {
    if hs == [] then -1 else hs[|hs| - 1]
  }

  /** What `append_token` does to `block_hashes`: one new entry when the token completes a block. */
  function NextHashes(c: Config, tokens: seq<Token>, hs: seq<int>, t: Token): seq<int> {
    if (|tokens| + 1) % c.B != 0 then hs
    else
      var block := Slice(tokens, Start(Max((|tokens| + 1) / c.B - 1, 0), c.B), |tokens|) + [t];
      hs + [c.hash(block, LastHash(hs))]
  }

  /** The hash list after appending a run of tokens one by one. */
  function AppendedHashes(c: Config, tokens: seq<Token>, hs: seq<int>, ts: seq<Token>): seq<int>
    decreases |ts|
  {
    if ts == [] then hs
    else AppendedHashes(c, tokens + [ts[0]], NextHashes(c, tokens, hs, ts[0]), ts[1..])
  }

  lemma HashListAt(c: Config, tokens: seq<Token>, i: nat)
    requires i < |tokens| / c.B
    ensures Start(i + 1, c.B) <= |tokens| && BlockHashes(c, tokens)[i] == BlockHash(c, tokens, i)
  {
    DivStart(|tokens|, c.B);
    StartMono(i + 1, |tokens| / c.B, c.B);
  }

  lemma ChainStep(c: Config, tokens: seq<Token>, k: nat)
    requires k + c.B <= |tokens|
    ensures ChainHash(c, tokens[..k + c.B]) == c.hash(tokens[k..k + c.B], ChainHash(c, tokens[..k]))
  {
    var p := tokens[..k + c.B];
    assert p[|p| - c.B..] == tokens[k..k + c.B];
    assert p[..|p| - c.B] == tokens[..k];
  }

  /** One more block: its hash is chained to the hash of the block before. */
  lemma BlockHashStep(c: Config, tokens: seq<Token>, i: nat)
    requires Start(i + 1, c.B) <= |tokens|
    ensures Start(i, c.B) <= Start(i + 1, c.B)
    ensures BlockHash(c, tokens, i) ==
            c.hash(tokens[Start(i, c.B)..Start(i + 1, c.B)], if i == 0 then -1 else BlockHash(c, tokens, i - 1))
  {
    var k := Start(i, c.B);
    assert Start(i + 1, c.B) == k + c.B;
    ChainStep(c, tokens, k);
    if i == 0 {
      assert ChainHash(c, tokens[..k]) == -1;
    }
  }

  lemma BlockCount(n: nat, B: pos)
    ensures (n + 1) % B == 0 ==> (n + 1) / B == n / B + 1 && n + 1 == Start(n / B + 1, B)
    ensures (n + 1) % B != 0 ==> (n + 1) / B == n / B
  {
    DivStart(n, B);
    DivStart(n + 1, B);
    var q := n / B;
    if n + 1 == Start(q + 1, B) {
      DivUnique(n + 1, B, q + 1);
    } else {
      DivUnique(n + 1, B, q);
    }
  }

  lemma BlockHashPrefix(c: Config, tokens: seq<Token>, longer: seq<Token>, i: nat)
    requires tokens <= longer && Start(i + 1, c.B) <= |tokens|
    ensures BlockHash(c, longer, i) == BlockHash(c, tokens, i)
  {
    assert longer[..Start(i + 1, c.B)] == tokens[..Start(i + 1, c.B)];
  }

  lemma OldHashesStay(c: Config, tokens: seq<Token>, t: Token)
    ensures var hs, hs' := BlockHashes(c, tokens), BlockHashes(c, tokens + [t]);
            |hs| <= |hs'| && hs'[..|hs|] == hs
  {
    hide BlockHash;
    var hs, hs' := BlockHashes(c, tokens), BlockHashes(c, tokens + [t]);
    BlockCount(|tokens|, c.B);
    forall i: nat | i < |hs|
      ensures hs'[i] == hs[i]
    {
      HashListAt(c, tokens, i);
      HashListAt(c, tokens + [t], i);
      BlockHashPrefix(c, tokens, tokens + [t], i);
    }
  }

  lemma LastListed(c: Config, tokens: seq<Token>, i: nat)
    requires i == |tokens| / c.B
    ensures LastHash(BlockHashes(c, tokens)) == if i == 0 then -1 else LastBlockHash(c, tokens, i)
  {
    if i > 0 {
      HashListAt(c, tokens, i - 1);
    }
  }

  function LastBlockHash(c: Config, tokens: seq<Token>, i: nat): int
    requires 0 < i == |tokens| / c.B
  {
    HashListAt(c, tokens, i - 1);
    BlockHash(c, tokens, i - 1)
  }

  /** A completed block adds the hash of its tokens, chained to the last hash so far. */
  lemma NewHash(c: Config, tokens: seq<Token>, t: Token)
    requires (|tokens| + 1) % c.B == 0
    ensures var i := |tokens| / c.B;
            && |BlockHashes(c, tokens + [t])| == i + 1
            && BlockHashes(c, tokens + [t])[i]
               == c.hash(Slice(tokens, Start(i, c.B), |tokens|) + [t], LastHash(BlockHashes(c, tokens)))
  {
    hide BlockHashes, BlockHash, ChainHash;
    var i := |tokens| / c.B;
    var longer := tokens + [t];
    BlockCount(|tokens|, c.B);
    HashListAt(c, longer, i);
    BlockHashStep(c, longer, i);
    assert longer[Start(i, c.B)..Start(i + 1, c.B)] == Slice(tokens, Start(i, c.B), |tokens|) + [t];
    LastListed(c, tokens, i);
    if i > 0 {
      HashListAt(c, tokens, i - 1);
      BlockHashPrefix(c, tokens, longer, i - 1);
    }
  }

  /** A rebuild that has reached block `|hs|`. */
  ghost predicate HashesUpTo(c: Config, tokens: seq<Token>, hs: seq<int>) {
    forall j: nat :: j < |hs| ==> HashOk(c, tokens, j, hs[j])
  }

  ghost predicate HashOk(c: Config, tokens: seq<Token>, j: nat, h: int) {
    Start(j + 1, c.B) <= |tokens| && h == BlockHash(c, tokens, j)
  }

  lemma HashListIs(c: Config, tokens: seq<Token>, hs: seq<int>)
    requires HashesUpTo(c, tokens, hs) && Start(|hs| + 1, c.B) > |tokens| && Start(|hs|, c.B) <= |tokens|
    ensures hs == BlockHashes(c, tokens)
  {
    hide BlockHash, ChainHash, BlockHashes;
    DivUnique(|tokens|, c.B, |hs|);
    forall j: nat | j < |hs|
      ensures hs[j] == BlockHashes(c, tokens)[j]
    {
      assert HashOk(c, tokens, j, hs[j]);
      HashListAt(c, tokens, j);
    }
  }

  lemma NothingHashed(c: Config, tokens: seq<Token>)
    ensures HashesUpTo(c, tokens, [])
  {
  }

  lemma HashesStep(c: Config, tokens: seq<Token>, hs: seq<int>)
    requires HashesUpTo(c, tokens, hs) && Start(|hs| + 1, c.B) <= |tokens|
    ensures Slice(tokens, Start(|hs|, c.B), Start(|hs| + 1, c.B)) == tokens[Start(|hs|, c.B)..Start(|hs| + 1, c.B)]
    ensures HashesUpTo(c, tokens, hs + [c.hash(tokens[Start(|hs|, c.B)..Start(|hs| + 1, c.B)], LastHash(hs))])
  {
    hide BlockHash, ChainHash;
    BlockHashStep(c, tokens, |hs|);
    var block := tokens[Start(|hs|, c.B)..Start(|hs| + 1, c.B)];
    var hs': seq<int> := hs + [c.hash(block, LastHash(hs))];
    assert |hs| > 0 ==> HashOk(c, tokens, |hs| - 1, LastHash(hs));
    forall j: nat | j < |hs'|
      ensures HashOk(c, tokens, j, hs'[j])
    {
      assert j < |hs| ==> hs'[j] == hs[j] && HashOk(c, tokens, j, hs[j]);
    }
  }

  /** Keeping the hash list up to date is the same as rebuilding it. */
  lemma NextIsRebuild(c: Config, tokens: seq<Token>, t: Token)
    ensures NextHashes(c, tokens, BlockHashes(c, tokens), t) == BlockHashes(c, tokens + [t])
  {
    hide BlockHashes;
    var hs, hs' := BlockHashes(c, tokens), BlockHashes(c, tokens + [t]);
    OldHashesStay(c, tokens, t);
    BlockCount(|tokens|, c.B);
    if (|tokens| + 1) % c.B == 0 {
      NewHash(c, tokens, t);
      assert hs' == hs'[..|hs|] + [hs'[|hs|]];
    } else {
      assert hs' == hs'[..|hs|];
    }
  }

  /** After any run of `append_token`, the hashes are those of a rebuild, one for each full block. */
  lemma {:induction false} AppendedIsRebuild(c: Config, tokens: seq<Token>, ts: seq<Token>)
    ensures AppendedHashes(c, tokens, BlockHashes(c, tokens), ts) == BlockHashes(c, tokens + ts)
    ensures |AppendedHashes(c, tokens, BlockHashes(c, tokens), ts)| == (|tokens| + |ts|) / c.B
    decreases |ts|
  {
    hide BlockHashes, NextHashes;
    if ts == [] {
      assert tokens + ts == tokens;
    } else {
      NextIsRebuild(c, tokens, ts[0]);
      AppendedIsRebuild(c, tokens + [ts[0]], ts[1..]);
      assert tokens + [ts[0]] + ts[1..] == tokens + ts;
    }
  }

  // ---------------------------------------------------------------- the object

  class Sequence {
    const config: Config            // block_size and compute_block_hash
    const seqId: nat
    const numPromptTokens: nat
    const maxTokens: nat
    const ignoreEos: bool
    var status: Status
    var tokenIds: seq<Token>
    var lastToken: Token
    var numTokens: nat
    var blockHashes: seq<int>
    var numCachedTokens: nat
    var numNewTokens: nat
    var blockTable: seq<nat>

    ghost predicate Valid()
      reads this
    {
      && numTokens == |tokenIds| > 0
      && lastToken == tokenIds[numTokens - 1]
      && blockHashes == BlockHashes(config, tokenIds)
    }

    /** The request as a value. */
    function View(): Req
      reads this
    {
      Req(tokenIds, numPromptTokens, maxTokens, ignoreEos, numCachedTokens, numNewTokens, blockTable, status)
    }

    constructor (config: Config, seqId: nat, tokenIds: seq<Token>, maxTokens: nat, ignoreEos: bool)
      requires tokenIds != []
      ensures Valid() && this.config == config && this.seqId == seqId
      ensures View() == Req(tokenIds, |tokenIds|, maxTokens, ignoreEos, 0, 0, [], Waiting)
    {
      this.config, this.seqId := config, seqId;
      this.numPromptTokens, this.maxTokens, this.ignoreEos := |tokenIds|, maxTokens, ignoreEos;
      this.status := Waiting;
      this.tokenIds, this.lastToken, this.numTokens := tokenIds, tokenIds[|tokenIds| - 1], |tokenIds|;
      this.numCachedTokens, this.numNewTokens, this.blockTable := 0, 0, [];
      new;
      blockHashes := BuildBlockHashes();
    }

    method BuildBlockHashes() returns (hs: seq<int>)
      ensures hs == BlockHashes(config, tokenIds)
    {
      hide BlockHashes, HashesUpTo;
      hs := [];
      var prefixHash: int := -1;
      var offset := 0;
      NothingHashed(config, tokenIds);
      while offset < |tokenIds|
        invariant offset == Start(|hs|, config.B) <= |tokenIds|
        invariant HashesUpTo(config, tokenIds, hs) && prefixHash == LastHash(hs)
        decreases |tokenIds| - offset
      {
        var block := Slice(tokenIds, offset, offset + config.B);
        if |block| != config.B {
          break;
        }
        HashesStep(config, tokenIds, hs);
        prefixHash := config.hash(block, prefixHash);
        hs := hs + [prefixHash];
        offset := offset + config.B;
      }
      HashListIs(config, tokenIds, hs);
    }

    /** `append_token`: the assertions about lengths hold, and the hashes stay those of a rebuild. */
    method AppendToken(t: Token)
      requires Valid()
      modifies this
      ensures Valid()
      ensures View() == old(View()).(tokens := old(tokenIds) + [t])
      ensures blockHashes == NextHashes(config, old(tokenIds), old(blockHashes), t)
    {
      NextIsRebuild(config, tokenIds, t);
      var next := numTokens + 1;
      var nextHashes := blockHashes;
      if next % config.B == 0 {
        var index := next / config.B - 1;
        BlockCount(numTokens, config.B);
        assert index == |blockHashes|;
        var block := tokenIds[Start(index, config.B)..] + [t];
        assert |block| == config.B;
        assert block == Slice(tokenIds, Start(index, config.B), numTokens) + [t];
        nextHashes := blockHashes + [config.hash(block, LastHash(blockHashes))];
      }
      tokenIds := tokenIds + [t];
      lastToken := t;
      numTokens := next;
      blockHashes := nextHashes;
    }

    /** `block_hashes[i]` is defined and right wherever a full block is. */
    lemma HashAt(i: nat)
      requires Valid() && Start(i + 1, config.B) <= |tokenIds|
      ensures i < |blockHashes| && blockHashes[i] == BlockHash(config, tokenIds, i)
    {
      DivStart(|tokenIds|, config.B);
      StartStrict(i, |tokenIds| / config.B, config.B) by {
        if |tokenIds| / config.B <= i { StartMono(|tokenIds| / config.B + 1, i + 1, config.B); }
      }
      HashListAt(config, tokenIds, i);
    }
  }

  ghost function ViewsOf(qs: seq<Sequence>): (rs: seq<Req>)
    reads qs
    ensures |rs| == |qs|
    ensures forall i: nat {:trigger rs[i]} :: i < |qs| ==> rs[i] == qs[i].View()
  {
    seq(|qs|, i requires 0 <= i < |qs| reads qs => qs[i].View())
  }
}
