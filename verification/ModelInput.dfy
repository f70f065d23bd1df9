/** From scheduled requests to the arrays of one forward pass: tokens, positions, slots, block tables. */
module ModelInput {
  import opened Arith
  import opened Requests
  import opened Sequences
  import opened Addressing

  /** Pages as a rectangle: one row per request, padded with -1. */
  type BlockTables = seq<seq<int>>

  datatype Optional<+T> = Absent | Present(value: T)

  /** `CommonAttentionMetadata` */
  datatype Common = Common(
    numPrefillSeqs: int,
    numDecodeSeqs: int,
    numPrefillTokens: int,
    numDecodeTokens: int,
    queryStartLoc: seq<int>,
    seqLens: seq<int>,
    slotMapping: seq<int>,
    blockTables: Optional<BlockTables>,
    maxQLen: int,
    maxKvLen: int,
    blockCounts: seq<int>,
    numKvBlocks: int,
    numPrefillKvBlocks: int,
    trusted: bool)
  {
    function NumSeqs(): int { numPrefillSeqs + numDecodeSeqs }
    function NumQueryTokens(): int { numPrefillTokens + numDecodeTokens }
  }

  datatype Input = Input(inputIds: seq<Token>, positions: seq<int>, common: Common, needLogits: Optional<seq<nat>>)

  // ---------------------------------------------------------------- the slot mapping of one request

  /** The slots `lo`, `lo + 1`, ... below `hi`. */
  function Interval(lo: int, hi: int): (r: seq<int>)
    ensures |r| == Max(hi - lo, 0)
    ensures forall k :: 0 <= k < |r| ==> r[k] == lo + k
  {
    seq(Max(hi - lo, 0), k requires 0 <= k < Max(hi - lo, 0) => lo + k)
  }

  /** The slots the loop emits for page `i` of a table: from the first new token in it, to the last. */
  function PageSlots(c: Config, r: Req, i: nat): seq<int>
    requires i < |r.table|
  {
    var base := Start(r.table[i], c.B);
    var start := if i == r.cached / c.B then base + r.cached % c.B else base;
    var end := if i == |r.table| - 1 && r.Context() % c.B != 0 then base + r.Context() % c.B else base + c.B;
    Interval(start, end)
  }

  /** The loop over pages `first` to `k`. */
  function SlotsUpTo(c: Config, r: Req, k: nat): seq<int>
    requires k <= |r.table|
  {
    if k <= r.cached / c.B then [] else SlotsUpTo(c, r, k - 1) + PageSlots(c, r, k - 1)
  }

  function RequestSlots(c: Config, r: Req): seq<int> {
    if r.table == [] then seq(r.newToks, _ => -1) else SlotsUpTo(c, r, |r.table|)
  }

  /** Translated token by token: `block_table[p // B] * B + p % B` for each new position `p`. */
  function PointwiseSlots(c: Config, r: Req): (s: seq<int>)
    requires Covered(c, r)
    ensures |s| == r.newToks
  {
    seq(r.newToks, k requires 0 <= k < r.newToks =>
      PositionPage(c, r, r.cached + k);
      SlotOf(c, r, r.cached + k))
  }

  /** End of the new positions that lie in the first `k` pages. */
  function UpTo(c: Config, r: Req, k: nat): int {
    Min(Start(k, c.B), r.Context())
  }

  /** Where page `i` stands among the pages of the new positions. */
  lemma PageOrder(c: Config, r: Req, i: nat)
    requires Covered(c, r) && r.cached / c.B <= i < |r.table|
    ensures i == r.cached / c.B || Start(i, c.B) >= r.cached
    ensures i == r.cached / c.B ==>
              Start(i, c.B) <= r.cached < Start(i + 1, c.B) && r.cached % c.B == r.cached - Start(i, c.B)
    ensures i < |r.table| - 1 ==> Start(i + 1, c.B) <= r.Context()
    ensures i == |r.table| - 1 ==> r.Context() == Start(i, c.B) + if r.Context() % c.B != 0 then r.Context() % c.B
            else c.B
  {
    DivStart(r.cached, c.B);
    CeilBounds(r.Context(), c.B);
    if r.cached / c.B < i {
      StartMono(r.cached / c.B + 1, i, c.B);
    }
    if i < |r.table| - 1 {
      StartMono(i + 1, |r.table| - 1, c.B);
    } else {
      LastPageEnd(r.Context(), c.B);
    }
  }

  lemma PageSlotsLength(c: Config, r: Req, i: nat)
    requires Covered(c, r) && r.cached / c.B <= i < |r.table|
    ensures Max(Start(i, c.B), r.cached) <= UpTo(c, r, i + 1)
    ensures |PageSlots(c, r, i)| == UpTo(c, r, i + 1) - Max(Start(i, c.B), r.cached)
    ensures i == r.cached / c.B || Start(i, c.B) >= r.cached
    ensures i < |r.table| - 1 ==> Start(i + 1, c.B) <= r.Context()
  {
    hide Covered;
    PageOrder(c, r, i);
    var m := r.Context() % c.B;
    assert 0 <= m < c.B;
  }

  /** The context ends in the last page: at its end, or `n % B` into it. */
  lemma LastPageEnd(n: nat, B: pos)
    requires Ceil(n, B) > 0
    ensures n == Start(Ceil(n, B) - 1, B) + if n % B != 0 then n % B else B
  {
    CeilBounds(n, B);
    DivStart(n, B);
    var q := Ceil(n, B) - 1;
    if n < Start(q + 1, B) {
      DivUnique(n, B, q);
    } else {
      DivUnique(n, B, q + 1);
    }
  }

  lemma PageSlotsAt(c: Config, r: Req, i: nat, p: nat)
    requires Covered(c, r) && r.cached / c.B <= i < |r.table|
    requires Max(Start(i, c.B), r.cached) <= p < UpTo(c, r, i + 1)
    ensures p - Max(Start(i, c.B), r.cached) < |PageSlots(c, r, i)|
    ensures p / c.B == i && p < r.Context()
    ensures PageSlots(c, r, i)[p - Max(Start(i, c.B), r.cached)] == SlotOf(c, r, p)
  {
    PageSlotsLength(c, r, i);
    DivUnique(p, c.B, i);
    DivStart(p, c.B);
    DivStart(r.cached, c.B);
  }

  /** One page's interval is one piece of the token-by-token translation. */
  lemma PageIsPiece(c: Config, r: Req, i: nat)
    requires Covered(c, r) && r.cached / c.B <= i < |r.table|
    ensures var lo, hi := Max(Start(i, c.B), r.cached) - r.cached, UpTo(c, r, i + 1) - r.cached;
            && 0 <= lo <= hi <= r.newToks
            && PageSlots(c, r, i) == PointwiseSlots(c, r)[lo..hi]
  {
    hide PageSlots, SlotOf;
    PageSlotsLength(c, r, i);
    var lo, hi := Max(Start(i, c.B), r.cached) - r.cached, UpTo(c, r, i + 1) - r.cached;
    forall j: nat | j < hi - lo
      ensures j < |PageSlots(c, r, i)| && PageSlots(c, r, i)[j] == PointwiseSlots(c, r)[lo..hi][j]
    {
      PageSlotsAt(c, r, i, Max(Start(i, c.B), r.cached) + j);
    }
  }

  /** Up to any page, the loop has emitted exactly the translated new positions before that page's end. */
  lemma {:induction false} SlotsUpToPointwise(c: Config, r: Req, k: nat)
    requires Covered(c, r) && r.cached / c.B <= k <= |r.table|
    ensures var done := Max(UpTo(c, r, k) - r.cached, 0);
            && 0 <= done <= r.newToks
            && SlotsUpTo(c, r, k) == PointwiseSlots(c, r)[..done]
    decreases k
  {
    hide PageSlots, PointwiseSlots, Start;
    DivStart(r.cached, c.B);
    if k > r.cached / c.B {
      SlotsUpToPointwise(c, r, k - 1);
      PageIsPiece(c, r, k - 1);
      PageSlotsLength(c, r, k - 1);
      var all := PointwiseSlots(c, r);
      var lo, hi := Max(Start(k - 1, c.B), r.cached) - r.cached, UpTo(c, r, k) - r.cached;
      assert all[..lo] + all[lo..hi] == all[..hi];
    } else if k > 0 {
      StartMono(k, k, c.B);
    }
  }

  /** The interval loop is the token-by-token translation, for every alignment of the cached and context lengths. */
  lemma IntervalsArePointwise(c: Config, r: Req)
    requires Covered(c, r) && r.table != []
    ensures RequestSlots(c, r) == PointwiseSlots(c, r)
  {
    DivStart(r.cached, c.B);
    CeilBounds(r.Context(), c.B);
    if r.cached / c.B > |r.table| {
      StartMono(|r.table| + 1, r.cached / c.B, c.B);
    }
    SlotsUpToPointwise(c, r, |r.table|);
    assert PointwiseSlots(c, r)[..r.newToks] == PointwiseSlots(c, r);
  }

  // ---------------------------------------------------------------- the arrays of a batch

  function Front<T>(s: seq<T>): seq<T>
    requires s != []
  {
    s[..|s| - 1]
  }

  function Back<T>(s: seq<T>): T
    requires s != []
  {
    s[|s| - 1]
  }

  function NewTokens(rs: seq<Req>): nat {
    if rs == [] then 0 else NewTokens(Front(rs)) + Back(rs).newToks
  }

  function TableSizes(rs: seq<Req>): nat {
    if rs == [] then 0 else TableSizes(Front(rs)) + |Back(rs).table|
  }

  function FlatTokens(rs: seq<Req>): seq<Token> {
    if rs == [] then [] else FlatTokens(Front(rs)) + Slice(Back(rs).tokens, Back(rs).cached, Back(rs).Context())
  }

  function FlatPositions(rs: seq<Req>): seq<int> {
    if rs == [] then [] else FlatPositions(Front(rs)) + Interval(Back(rs).cached, Back(rs).Context())
  }

  function FlatSlots(c: Config, rs: seq<Req>): seq<int> {
    if rs == [] then [] else FlatSlots(c, Front(rs)) + RequestSlots(c, Back(rs))
  }

  function MaxNew(rs: seq<Req>): nat {
    if rs == [] then 0 else Max(Back(rs).newToks, MaxNew(Front(rs)))
  }

  function MaxContext(rs: seq<Req>): nat {
    if rs == [] then 0 else Max(Back(rs).Context(), MaxContext(Front(rs)))
  }

  function MaxTable(rs: seq<Req>): nat {
    if rs == [] then 0 else Max(|Back(rs).table|, MaxTable(Front(rs)))
  }

  predicate NeedsLogits(r: Req) {
    |r.tokens| == r.Context() && r.table != []
  }

  /** Rows of the batch whose last token is computed. */
  function LogitsRows(rs: seq<Req>): seq<nat> {
    if rs == [] then [] else LogitsRows(Front(rs)) + if NeedsLogits(Back(rs)) then [|rs| - 1] else []
  }

  function QueryStarts(rs: seq<Req>): (q: seq<int>)
    ensures |q| == |rs| + 1
  {
    seq(|rs| + 1, x requires 0 <= x < |rs| + 1 => NewTokens(rs[..x]))
  }

  function Contexts(rs: seq<Req>): (s: seq<int>)
    ensures |s| == |rs|
  {
    seq(|rs|, x requires 0 <= x < |rs| => rs[x].Context())
  }

  function TableCounts(rs: seq<Req>): (s: seq<int>)
    ensures |s| == |rs|
  {
    seq(|rs|, x requires 0 <= x < |rs| => |rs[x].table|)
  }

  /** One padded row. */
  function PaddedRow(table: seq<nat>, width: nat): (row: seq<int>)
    ensures |row| == Max(|table|, width)
    ensures forall i :: 0 <= i < |table| ==> row[i] == table[i]
    ensures forall i :: |table| <= i < |row| ==> row[i] == -1
  {
    seq(Max(|table|, width), i requires 0 <= i < Max(|table|, width) => if i < |table| then table[i] as int else -1)
  }

  function PaddedRows(rs: seq<Req>, width: nat): (ts: BlockTables)
    ensures |ts| == |rs|
    ensures forall x :: 0 <= x < |rs| ==> ts[x] == PaddedRow(rs[x].table, width)
  {
    seq(|rs|, x requires 0 <= x < |rs| => PaddedRow(rs[x].table, width))
  }

  function PaddedTables(rs: seq<Req>): (ts: BlockTables)
    ensures |ts| == |rs|
  {
    PaddedRows(rs, MaxTable(rs))
  }

  predicate Paged(rs: seq<Req>) {
    exists x :: 0 <= x < |rs| && rs[x].table != []
  }

  /** The arrays, when there is nothing to object to. */
  function Arrays(c: Config, rs: seq<Req>, n: nat): Input
    requires n <= |rs|
  {
    var paged := Paged(rs);
    Input(FlatTokens(rs), FlatPositions(rs),
      Common(n, |rs| - n, NewTokens(rs[..n]), NewTokens(rs[n..]), QueryStarts(rs), Contexts(rs), FlatSlots(c, rs),
             if paged then Present(PaddedTables(rs)) else Absent, MaxNew(rs), MaxContext(rs),
             if paged then TableCounts(rs) else [], if paged then TableSizes(rs) else 0,
             if paged then TableSizes(rs[..n]) else 0, true),
      if paged then Present(LogitsRows(rs)) else Absent)
  }

  /** `prepare_model_input`: the exceptions it raises, and the arrays it builds. */
  function Prepared(c: Config, rs: seq<Req>, numPrefill: Optional<int>): (r: Result<Input>)
    ensures r.Ok? && numPrefill.Present? ==> 0 <= numPrefill.value <= |rs|
  {
    var n := if numPrefill.Present? then numPrefill.value else |rs|;
    if rs == [] || !(0 <= n <= |rs|) then Err(InvalidInput)
    else if exists x :: n <= x < |rs| && rs[x].newToks != 1 then Err(AssertionFailed)
    else if Paged(rs) && exists x :: 0 <= x < |rs| && rs[x].table == [] then Err(InvalidInput)
    else Ok(Arrays(c, rs, n))
  }

  // ---------------------------------------------------------------- the loops

  method SumNewTokens(qs: seq<Sequence>) returns (n: nat)
    ensures n == NewTokens(ViewsOf(qs))
  {
    n := 0;
    var k := 0;
    while k < |qs|
      invariant 0 <= k <= |qs| && n == NewTokens(ViewsOf(qs)[..k])
    {
      assert Front(ViewsOf(qs)[..k + 1]) == ViewsOf(qs)[..k];
      n := n + qs[k].numNewTokens;
      k := k + 1;
    }
    assert ViewsOf(qs)[..k] == ViewsOf(qs);
  }

  method SumTables(qs: seq<Sequence>) returns (n: nat)
    ensures n == TableSizes(ViewsOf(qs))
  {
    n := 0;
    var k := 0;
    while k < |qs|
      invariant 0 <= k <= |qs| && n == TableSizes(ViewsOf(qs)[..k])
    {
      assert Front(ViewsOf(qs)[..k + 1]) == ViewsOf(qs)[..k];
      n := n + |qs[k].blockTable|;
      k := k + 1;
    }
    assert ViewsOf(qs)[..k] == ViewsOf(qs);
  }

  /** `prepare_block_tables` */
  method PrepareBlockTables(qs: seq<Sequence>) returns (tables: BlockTables)
    ensures tables == PaddedTables(ViewsOf(qs))
  {
    var width: nat, k := 0, 0;
    while k < |qs|
      invariant 0 <= k <= |qs| && width == MaxTable(ViewsOf(qs)[..k])
    {
      assert Front(ViewsOf(qs)[..k + 1]) == ViewsOf(qs)[..k];
      width := Max(|qs[k].blockTable|, width);
      k := k + 1;
    }
    assert ViewsOf(qs)[..k] == ViewsOf(qs);
    tables := [];
    while |tables| < |qs|
      invariant |tables| <= |qs| && tables == PaddedTables(ViewsOf(qs))[..|tables|]
      decreases |qs| - |tables|
    {
      tables := tables + [PaddedRow(qs[|tables|].blockTable, width)];
    }
  }

  /** The inner loop over the pages of one request. */
  method EmitSlots(c: Config, q: Sequence) returns (slots: seq<int>)
    ensures slots == RequestSlots(c, q.View())
  {
    if q.blockTable == [] {
      return seq(q.numNewTokens, _ => -1);
    }
    slots := [];
    var first := q.numCachedTokens / c.B;
    DivStart(q.numCachedTokens, c.B);
    if first >= |q.blockTable| {
      NoSlotsBefore(c, q.View(), |q.blockTable|);
      return;
    }
    var i := first;
    while i < |q.blockTable|
      invariant first <= i <= |q.blockTable| && slots == SlotsUpTo(c, q.View(), i)
    {
      var base := Start(q.blockTable[i], c.B);
      var start := if i == first then base + q.numCachedTokens % c.B else base;
      var context := q.numCachedTokens + q.numNewTokens;
      var end := base + c.B;
      if i == |q.blockTable| - 1 && context % c.B != 0 {
        end := base + context % c.B;
      }
      slots := slots + Interval(start, end);
      i := i + 1;
    }
  }

  lemma NoSlotsBefore(c: Config, r: Req, k: nat)
    requires k <= |r.table| && k <= r.cached / c.B
    ensures SlotsUpTo(c, r, k) == []
  {
  }

  /** The arrays of the first `k` requests. */
  ghost predicate Built(c: Config, rs: seq<Req>, k: nat, inputIds: seq<Token>, positions: seq<int>,
                        queryStart: seq<int>,
                        seqLens: seq<int>, maxQ: nat, maxKv: nat, slots: seq<int>, rows: seq<nat>)
    requires k <= |rs|
  {
    && inputIds == FlatTokens(rs[..k]) && positions == FlatPositions(rs[..k])
    && queryStart == QueryStarts(rs)[..k + 1] && seqLens == Contexts(rs)[..k]
    && maxQ == MaxNew(rs[..k]) && maxKv == MaxContext(rs[..k])
    && slots == FlatSlots(c, rs[..k]) && rows == LogitsRows(rs[..k])
  }

  lemma BuiltNext(c: Config, rs: seq<Req>, k: nat, inputIds: seq<Token>, positions: seq<int>, queryStart: seq<int>,
                  seqLens: seq<int>, maxQ: nat, maxKv: nat, slots: seq<int>, rows: seq<nat>)
    requires k < |rs| && Built(c, rs, k, inputIds, positions, queryStart, seqLens, maxQ, maxKv, slots, rows)
    ensures var r := rs[k];
            && queryStart != []
            && Built(c, rs, k + 1, inputIds + Slice(r.tokens, r.cached, r.Context()),
                     positions + Interval(r.cached, r.Context()),
                     queryStart + [Back(queryStart) + r.newToks], seqLens + [r.Context()], Max(r.newToks, maxQ),
                         Max(r.Context(), maxKv),
                     slots + RequestSlots(c, r), if NeedsLogits(r) then rows + [k] else rows)
  {
    hide RequestSlots, Slice, Interval, NeedsLogits, Start;
    var next := rs[..k + 1];
    assert Front(next) == rs[..k] && Back(next) == rs[k];
    assert QueryStarts(rs)[..k + 2] == QueryStarts(rs)[..k + 1] + [NewTokens(next)];
    assert Contexts(rs)[..k + 1] == Contexts(rs)[..k] + [rs[k].Context()];
  }

  /** The loop over the requests. */
  method BuildArrays(c: Config, qs: seq<Sequence>)
    returns (inputIds: seq<Token>, positions: seq<int>, queryStart: seq<int>, seqLens: seq<int>, maxQ: nat, maxKv: nat,
             slots: seq<int>, rows: seq<nat>)
    requires forall k :: 0 <= k < |qs| ==> qs[k].Valid()
    ensures Built(c, ViewsOf(qs), |qs|, inputIds, positions, queryStart, seqLens, maxQ, maxKv, slots, rows)
  {
    hide Built, RequestSlots, Slice;
    ghost var rs := ViewsOf(qs);
    inputIds, positions, queryStart, seqLens, slots := [], [], [0], [], [];
    maxQ, maxKv, rows := 0, 0, [];
    var k := 0;
    BuiltNone(c, rs);
    while k < |qs|
      invariant 0 <= k <= |qs| && Built(c, rs, k, inputIds, positions, queryStart, seqLens, maxQ, maxKv, slots, rows)
    {
      var q := qs[k];
      BuiltNext(c, rs, k, inputIds, positions, queryStart, seqLens, maxQ, maxKv, slots, rows);
      var context := q.numCachedTokens + q.numNewTokens;
      if q.numTokens == context && q.blockTable != [] {
        rows := rows + [k];
      }
      inputIds := inputIds + Slice(q.tokenIds, q.numCachedTokens, context);
      positions := positions + Interval(q.numCachedTokens, context);
      queryStart := queryStart + [Back(queryStart) + q.numNewTokens];
      seqLens := seqLens + [context];
      maxQ := Max(q.numNewTokens, maxQ);
      maxKv := Max(context, maxKv);
      var emitted := EmitSlots(c, q);
      slots := slots + emitted;
      k := k + 1;
    }
  }

  method AssembleInput(c: Config, qs: seq<Sequence>, n: nat, paged: bool) returns (input: Input)
    requires (forall k :: 0 <= k < |qs| ==> qs[k].Valid()) && n <= |qs| && paged == Paged(ViewsOf(qs))
    ensures input == Arrays(c, ViewsOf(qs), n)
  {
    hide Built, FlatTokens, FlatPositions, FlatSlots, LogitsRows, MaxNew, MaxContext, TableSizes, NewTokens,
         QueryStarts, Contexts, PaddedTables, Paged;
    ghost var rs := ViewsOf(qs);
    assert ViewsOf(qs[..n]) == rs[..n] && ViewsOf(qs[n..]) == rs[n..];
    var prefillTokens := SumNewTokens(qs[..n]);
    var decodeTokens := SumNewTokens(qs[n..]);
    var inputIds, positions, queryStart, seqLens, maxQ, maxKv, slots, rows := BuildArrays(c, qs);
    BuiltAll(c, rs, inputIds, positions, queryStart, seqLens, maxQ, maxKv, slots, rows);
    var tables, counts, numBlocks, numPrefillBlocks := Absent, [], 0, 0;
    if paged {
      var padded := PrepareBlockTables(qs);
      tables := Present(padded);
      counts := seq(|qs|, x requires 0 <= x < |qs| reads qs => |qs[x].blockTable|);
      assert counts == TableCounts(rs);
      numBlocks := SumTables(qs);
      numPrefillBlocks := SumTables(qs[..n]);
    }
    return Input(inputIds, positions,
      Common(n, |qs| - n, prefillTokens, decodeTokens, queryStart, seqLens, slots, tables, maxQ, maxKv,
             counts, numBlocks, numPrefillBlocks, true),
      if paged then Present(rows) else Absent);
  }

  /** `prepare_model_input` */
  method PrepareModelInput(c: Config, qs: seq<Sequence>, numPrefill: Optional<int>) returns (res: Result<Input>)
    requires forall k :: 0 <= k < |qs| ==> qs[k].Valid()
    ensures res == Prepared(c, ViewsOf(qs), numPrefill)
  {
    hide Arrays;
    ghost var rs := ViewsOf(qs);
    assert forall x {:trigger qs[x]} :: 0 <= x < |qs| ==> rs[x] == qs[x].View();
    var n := if numPrefill.Present? then numPrefill.value else |qs|;
    if qs == [] || !(0 <= n <= |qs|) {
      return Err(InvalidInput);
    }
    if exists x :: n <= x < |qs| && qs[x].numNewTokens != 1 {
      return Err(AssertionFailed);
    }
    var paged := exists x :: 0 <= x < |qs| && qs[x].blockTable != [];
    if paged && exists x :: 0 <= x < |qs| && qs[x].blockTable == [] {
      return Err(InvalidInput);
    }
    var input := AssembleInput(c, qs, n, paged);
    return Ok(input);
  }

  lemma BuiltNone(c: Config, rs: seq<Req>)
    ensures Built(c, rs, 0, [], [], [0], [], 0, 0, [], [])
  {
  }

  lemma BuiltAll(c: Config, rs: seq<Req>, inputIds: seq<Token>, positions: seq<int>, queryStart: seq<int>,
                 seqLens: seq<int>, maxQ: nat, maxKv: nat, slots: seq<int>, rows: seq<nat>)
    requires Built(c, rs, |rs|, inputIds, positions, queryStart, seqLens, maxQ, maxKv, slots, rows)
    ensures inputIds == FlatTokens(rs) && positions == FlatPositions(rs) && queryStart == QueryStarts(rs)
            && seqLens == Contexts(rs)
    ensures maxQ == MaxNew(rs) && maxKv == MaxContext(rs) && slots == FlatSlots(c, rs) && rows == LogitsRows(rs)
  {
    assert rs[..|rs|] == rs;
  }
}
