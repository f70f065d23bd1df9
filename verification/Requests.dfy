/** Requests as values: tokens, cache progress, page table, and the chained block hashes. */
module Requests {
  import opened Arith

  type Token = int

  /** The content hash of one block under the hash of everything before it; any function will do. */
  type HashFn = (seq<Token>, int) -> nat

  datatype Error = AssertionFailed | StalePlan | PromptTooLong | NoProgress | InvalidInput

  /** An error of the engine: a failed assertion, or one of the exceptions it raises. */
  datatype Result<+T> = Ok(value: T) | Err(error: Error) {
    predicate IsFailure() { Err? }

    function PropagateFailure<U>(): Result<U>
      requires Err?
    {
      Err(error)
    }

    function Extract(): T
      requires Ok?
    {
      value
    }
  }

  datatype Config = Config(
    B: pos,                  // kvcache_block_size
    numBlocks: nat,          // num_kvcache_blocks
    hash: HashFn,
    maxSeqs: nat,            // max_num_seqs
    maxBatch: nat,           // max_num_batched_tokens
    maxLen: nat,             // max_model_len
    chunked: bool,           // chunked_prefill
    lpm: bool,               // enable_lpm
    sameStep: bool,          // enable_same_step_prefix_reuse
    unified: bool,           // attention_mode "unified", on a device that has the kernel
    eos: Token)

  datatype Status = Waiting | Running | Finished

  datatype Req = Req(
    tokens: seq<Token>,
    numPrompt: nat,
    maxTokens: nat,
    ignoreEos: bool,
    cached: nat,             // num_cached_tokens
    newToks: nat,              // num_new_tokens
    table: seq<nat>,         // block_table
    status: Status)
  {
    function Context(): nat { cached + newToks }

    function NumBlocks(B: pos): nat { Ceil(|tokens|, B) }

    /** `seq.block(i)`: the slice clamps at the end of the tokens, as Python's does. */
    function Block(i: nat, B: pos): seq<Token> {
      Slice(tokens, Start(i, B), Start(i + 1, B))
    }

    function Completions(): int { |tokens| - numPrompt }
  }

  function Slice<T>(s: seq<T>, lo: nat, hi: nat): seq<T> {
    if hi <= lo || |s| <= lo then [] else if |s| < hi then s[lo..] else s[lo..hi]
  }

  /** Hash of the last block of `prefix`, chained over the blocks before it; -1 when there is no block. */
  function ChainHash(c: Config, prefix: seq<Token>): (h: int)
    ensures h >= 0 <==> |prefix| >= c.B
    decreases |prefix|
  {
    if |prefix| < c.B then -1
    else c.hash(prefix[|prefix| - c.B..], ChainHash(c, prefix[..|prefix| - c.B]))
  }

  /** `block_hashes[i]`: the hash that names the first `i + 1` blocks of `tokens`. */
  function BlockHash(c: Config, tokens: seq<Token>, i: nat): (h: int)
    requires Start(i + 1, c.B) <= |tokens|
    ensures h >= 0
  {
    ChainHash(c, tokens[..Start(i + 1, c.B)])
  }

  /** The hash list a rebuild from scratch produces: one entry per full block. */
  function BlockHashes(c: Config, tokens: seq<Token>): (hs: seq<int>)
    ensures |hs| == |tokens| / c.B
  {
    DivStart(|tokens|, c.B);
    seq(|tokens| / c.B, i requires 0 <= i < |tokens| / c.B =>
      StartMono(i + 1, |tokens| / c.B, c.B);
      BlockHash(c, tokens, i))
  }
}
