/** Attention plans over the page CSR: whatever the route, each query row reads exactly its own context. */
module Plans {
  import opened Arith
  import opened Requests
  import opened Addressing
  import opened ModelInput
  import opened Metadata

  /** What one FlashInfer wrapper is planned with. A decode wrapper has one query row per sequence. */
  datatype WrapperPlan = WrapperPlan(qIndptr: seq<int>, kvIndptr: seq<int>, indices: seq<int>, lastPageLen: seq<int>)

  datatype Plan =
    | Warmup
    | Prefill(plan: WrapperPlan)
    | Decode(plan: WrapperPlan)
    | MixedUnified(plan: WrapperPlan)
    | MixedSplit(prefill: WrapperPlan, decode: WrapperPlan, split: int)

  function Cut<T>(s: seq<T>, lo: int, hi: int): seq<T> {
    if 0 <= lo && lo <= hi <= |s| then s[lo..hi] else []
  }

  function Unified(csr: Csr): WrapperPlan {
    WrapperPlan(csr.queryStartLoc, csr.kvIndptr, csr.pageIndices, csr.lastPageLen)
  }

  function PrefillPart(m: Common, csr: Csr): WrapperPlan {
    var p := m.numPrefillSeqs;
    WrapperPlan(Cut(csr.queryStartLoc, 0, p + 1), Cut(csr.kvIndptr, 0, p + 1),
                Cut(csr.pageIndices, 0, csr.numPrefillPages), Cut(csr.lastPageLen, 0, p))
  }

  function Rebased(s: seq<int>, base: int): (r: seq<int>)
    ensures |r| == |s|
  {
    seq(|s|, i requires 0 <= i < |s| => s[i] - base)
  }

  /** The decode rows; their offsets are rebased to the first decode page. */
  function DecodePart(m: Common, csr: Csr, from: int, base: int): WrapperPlan {
    var kv := Cut(csr.kvIndptr, from, |csr.kvIndptr|);
    WrapperPlan(Interval(0, |kv|), Rebased(kv, base), Cut(csr.pageIndices, base, |csr.pageIndices|),
                Cut(csr.lastPageLen, from, |csr.lastPageLen|))
  }

  predicate IndptrOk(m: Common, csr: Csr) {
    if m.trusted then csr.numPages == |csr.pageIndices|
    else
      && csr.queryStartLoc != [] && csr.queryStartLoc[0] == 0
      && csr.kvIndptr != [] && csr.kvIndptr[0] == 0
      && csr.kvIndptr[|csr.kvIndptr| - 1] == |csr.pageIndices|
  }

  /** `build_plan`; `unified` says whether the mixed wrapper exists. */
  function BuildPlan(c: Config, m: Common, unified: bool): Result<Plan> {
    var csr :- BuildCsr(c, m);
    var kind :- Classify(m);
    if csr.Absent? then Ok(Warmup)
    else if !IndptrOk(m, csr.value) then Err(InvalidInput)
    else
      match kind
      case PurePrefill => Ok(Prefill(Unified(csr.value)))
      case PureDecode => Ok(Decode(DecodePart(m, csr.value, 0, 0)))
      case Mixed =>
        if unified then Ok(MixedUnified(Unified(csr.value)))
        else Ok(MixedSplit(PrefillPart(m, csr.value), DecodePart(m, csr.value, m.numPrefillSeqs,
                                                                 csr.value.numPrefillPages),
                           m.numPrefillTokens))
  }

  /** A plan is built exactly for accepted metadata whose offsets end at its last page, or that has no pages at all. */
  lemma PlanObjects(c: Config, m: Common, unified: bool)
    ensures BuildPlan(c, m, unified).Ok? <==>
              && BuildCsr(c, m).Ok?
              && (BuildCsr(c, m).value.Present? ==>
                    var csr := BuildCsr(c, m).value.value;
                    if m.trusted then csr.numPages == |csr.pageIndices|
                    else
                      && csr.queryStartLoc != [] && csr.queryStartLoc[0] == 0
                      && csr.kvIndptr != [] && csr.kvIndptr[0] == 0
                      && csr.kvIndptr[|csr.kvIndptr| - 1] == |csr.pageIndices|)
    ensures BuildPlan(c, m, unified).Err? ==> BuildPlan(c, m, unified).error == InvalidInput
  {
    hide TrustedCsr, UntrustedCsr, DecodePart, PrefillPart;
    CsrErrors(c, m);
  }

  lemma CsrErrors(c: Config, m: Common)
    ensures BuildCsr(c, m).Err? ==> BuildCsr(c, m).error == InvalidInput
    ensures BuildCsr(c, m).Ok? ==> CommonValid(m)
  {
    hide CutRows, PrefixSums, LastPageLens, PageCounts, CommonValid;
  }

  // ---------------------------------------------------------------- what a wrapper reads

  /** The sequence that query row `t` belongs to, looked for from sequence `x` on. */
  function SeqOf(qIndptr: seq<int>, t: int, x: nat): nat
    decreases |qIndptr| - x
  {
    if x + 1 >= |qIndptr| || t < qIndptr[x + 1] then x else SeqOf(qIndptr, t, x + 1)
  }

  /** Slot of position `p` in a list of pages. */
  function PagedSlot(c: Config, pages: seq<int>, p: nat): int {
    if p / c.B < |pages| && pages[p / c.B] >= 0 then Start(pages[p / c.B], c.B) + p % c.B else -1
  }

  /** Query rows of a sequence are the last ones of its context; each reads the context up to itself. */
  function WrapperReads(c: Config, w: WrapperPlan, t: int): seq<int> {
    var x := SeqOf(w.qIndptr, t, 0);
    if x + 1 >= |w.qIndptr| || x + 1 >= |w.kvIndptr| || x >= |w.lastPageLen| then []
    else
      var pages := Row(w.kvIndptr, w.indices, x);
      if pages == [] then []
      else
        var kvLen := Start(|pages| - 1, c.B) + w.lastPageLen[x];
        var count := Max(kvLen - (w.qIndptr[x + 1] - t) + 1, 0);
        seq(count, p requires 0 <= p < count => PagedSlot(c, pages, p))
  }

  /** What query row `n` of the batch reads, and from which wrapper. */
  function PlanReads(c: Config, plan: Plan, n: int): seq<int> {
    match plan
    case Warmup => []
    case Prefill(w) => WrapperReads(c, w, n)
    case Decode(w) => WrapperReads(c, w, n)
    case MixedUnified(w) => WrapperReads(c, w, n)
    case MixedSplit(p, d, split) => if n < split then WrapperReads(c, p, n) else WrapperReads(c, d, n - split)
  }

  /** The slots of the context of request `r` up to position `p`. */
  function ContextSlots(c: Config, r: Req, p: nat): (s: seq<int>)
    requires Covered(c, r) && p < r.Context()
    ensures |s| == p + 1
  {
    seq(p + 1, q requires 0 <= q < p + 1 => PositionPage(c, r, q); SlotOf(c, r, q))
  }

  // ---------------------------------------------------------------- rows of a plan

  /** Sequence `x` of a wrapper plan is request `r`, with its query rows from `q` on. */
  ghost predicate RowIs(c: Config, w: WrapperPlan, x: nat, r: Req, q: int) {
    && x + 1 < |w.qIndptr| && x + 1 < |w.kvIndptr| && x < |w.lastPageLen|
    && w.qIndptr[x] == q && w.qIndptr[x + 1] == q + r.newToks
    && Row(w.kvIndptr, w.indices, x) == PaddedRow(r.table, 0)
    && r.table != []
    && Start(|r.table| - 1, c.B) + w.lastPageLen[x] == r.Context()
  }

  ghost predicate Increasing(q: seq<int>) {
    forall i, j :: 0 <= i < j < |q| ==> q[i] < q[j]
  }

  lemma {:induction false} SeqOfIs(q: seq<int>, t: int, x: nat, from: nat)
    requires Increasing(q) && from <= x && x + 1 < |q| && q[x] <= t < q[x + 1]
    ensures SeqOf(q, t, from) == x
    decreases |q| - from
  {
    if from < x {
      SeqOfIs(q, t, x, from + 1);
    }
  }

  /** A wrapper whose sequence `x` is request `r` lets each of its query rows read exactly the context before it. */
  lemma RowReads(c: Config, w: WrapperPlan, x: nat, r: Req, q: int, t: int)
    requires RowIs(c, w, x, r, q) && Increasing(w.qIndptr) && Covered(c, r)
    requires q <= t < q + r.newToks
    ensures r.cached + (t - q) < r.Context()
    ensures WrapperReads(c, w, t) == ContextSlots(c, r, r.cached + (t - q))
  {
    hide Row;
    SeqOfIs(w.qIndptr, t, x, 0);
    var p := r.cached + (t - q);
    var pages := PaddedRow(r.table, 0);
    assert Start(|pages| - 1, c.B) + w.lastPageLen[x] - (w.qIndptr[x + 1] - t) + 1 == p + 1;
    forall k: nat | k <= p
      ensures k / c.B < |r.table| && PagedSlot(c, pages, k) == SlotOf(c, r, k)
    {
      PositionPage(c, r, k);
    }
  }

  // ---------------------------------------------------------------- the plans of a scheduled batch

  lemma StartsIncrease(rs: seq<Req>, x: nat, y: nat)
    requires forall k :: 0 <= k < |rs| ==> rs[k].newToks > 0
    requires x < y <= |rs|
    ensures QueryStarts(rs)[x] < QueryStarts(rs)[y]
  {
    QueryStartNext(rs, y - 1);
    if x < y - 1 {
      StartsIncrease(rs, x, y - 1);
    }
  }

  lemma QueriesIncrease(c: Config, rs: seq<Req>, n: nat)
    requires Ready(c, rs, n)
    ensures Increasing(QueryStarts(rs))
  {
    forall i, j | 0 <= i < j < |QueryStarts(rs)|
      ensures QueryStarts(rs)[i] < QueryStarts(rs)[j]
    {
      StartsIncrease(rs, i, j);
    }
  }

  /** In the unified plan, sequence `x` is request `x`. */
  lemma UnifiedRow(c: Config, rs: seq<Req>, n: nat, x: nat)
    requires Ready(c, rs, n) && x < |rs| && n <= |rs|
    ensures RowIs(c, Unified(BatchCsr(c, rs, n)), x, rs[x], QueryStarts(rs)[x])
  {
    hide Ready, QueryStarts, FlatTables, PrefixSums, Row, TableSizes, LastPageLens, TableCounts, Arrays, NewTokens,
         PaddedRow, Covered;
    RowDecodes(c, rs, n, x);
    QueryStartNext(rs, x);
    EnoughRows(c, rs, n);
  }

  lemma EnoughRows(c: Config, rs: seq<Req>, n: nat)
    requires n <= |rs|
    ensures var csr := BatchCsr(c, rs, n);
            |csr.kvIndptr| == |rs| + 1 == |csr.queryStartLoc| && |csr.lastPageLen| == |rs|
                && |csr.pageIndices| == TableSizes(rs)
  {
    hide FlatTables;
    FlatTablesPages(rs);
  }

  /** Offsets only grow, and end at the number of pages. */
  lemma OffsetAt(c: Config, rs: seq<Req>, n: nat, x: nat)
    requires n <= |rs| && x <= |rs|
    ensures BatchCsr(c, rs, n).kvIndptr[x] == TableSizes(rs[..x])
  {
    SumUpTo(rs, x);
  }

  lemma {:induction false} SizesGrow(rs: seq<Req>, x: nat, y: nat)
    requires x <= y <= |rs|
    ensures TableSizes(rs[..x]) <= TableSizes(rs[..y])
  {
    if x < y {
      SizesGrow(rs, x, y - 1);
      assert Front(rs[..y]) == rs[..y - 1];
    }
  }

  /** The prefill slice keeps the first rows as they are. */
  lemma PrefillRow(c: Config, rs: seq<Req>, n: nat, x: nat)
    requires Ready(c, rs, n) && x < n <= |rs|
    ensures RowIs(c, PrefillPart(Arrays(c, rs, n).common, BatchCsr(c, rs, n)), x, rs[x], QueryStarts(rs)[x])
  {
    hide Ready, QueryStarts, FlatTables, PrefixSums, TableSizes, PaddedTables, Covered, LastPageLens, TableCounts,
         MaxTable, NewTokens, Row, PaddedRow, MaxNew, MaxContext, FlatSlots, FlatTokens, FlatPositions, LogitsRows,
         Contexts, Paged;
    var csr := BatchCsr(c, rs, n);
    UnifiedRow(c, rs, n, x);
    EnoughRows(c, rs, n);
    OffsetAt(c, rs, n, x);
    OffsetAt(c, rs, n, x + 1);
    OffsetAt(c, rs, n, n);
    SizesGrow(rs, x, x + 1);
    SizesGrow(rs, x + 1, n);
    SizesGrow(rs, n, |rs|);
    assert rs[..|rs|] == rs;
    PrefillRowPages(csr, n, TableSizes(rs[..n]), x);
  }

  /** Cutting behind a row does not change it. */
  lemma PrefillRowPages(csr: Csr, to: nat, end: nat, x: nat)
    requires x < to < |csr.kvIndptr| && end <= |csr.pageIndices|
    requires 0 <= csr.kvIndptr[x] <= csr.kvIndptr[x + 1] <= end
    ensures Row(Cut(csr.kvIndptr, 0, to + 1), Cut(csr.pageIndices, 0, end), x) == Row(csr.kvIndptr, csr.pageIndices, x)
  {
  }

  /** The rebased decode slice keeps the last rows as they are, with one query row each. */
  lemma DecodeRow(c: Config, rs: seq<Req>, n: nat, from: nat, x: nat)
    requires Ready(c, rs, n) && n <= from && from + x < |rs|
    ensures RowIs(c, DecodePart(Arrays(c, rs, n).common, BatchCsr(c, rs, n), from, TableSizes(rs[..from])), x,
                  rs[from + x], x)
  {
    hide QueryStarts, FlatTables, PrefixSums, TableSizes, PaddedTables, Covered, LastPageLens, TableCounts, MaxTable,
         NewTokens, Arrays, Row, PaddedRow;
    var csr := BatchCsr(c, rs, n);
    UnifiedRow(c, rs, n, from + x);
    EnoughRows(c, rs, n);
    OffsetAt(c, rs, n, from + x);
    OffsetAt(c, rs, n, from + x + 1);
    SizesGrow(rs, from, from + x);
    SizesGrow(rs, from + x, from + x + 1);
    SizesGrow(rs, from + x + 1, |rs|);
    assert rs[..|rs|] == rs;
    DecodeRowPages(csr, from, TableSizes(rs[..from]), x);
    assert rs[from + x].newToks == 1;
  }

  /** Rebasing offsets and pages together changes no row. */
  lemma DecodeRowPages(csr: Csr, from: nat, base: nat, x: nat)
    requires from + x + 1 < |csr.kvIndptr| && base <= |csr.pageIndices|
    requires base <= csr.kvIndptr[from + x] <= csr.kvIndptr[from + x + 1] <= |csr.pageIndices|
    ensures var kv := Rebased(Cut(csr.kvIndptr, from, |csr.kvIndptr|), base);
            && x + 1 < |kv|
            && Row(kv, Cut(csr.pageIndices, base, |csr.pageIndices|), x) == Row(csr.kvIndptr, csr.pageIndices, from + x)
  {
    var kv := Rebased(Cut(csr.kvIndptr, from, |csr.kvIndptr|), base);
    assert kv[x] == csr.kvIndptr[from + x] - base && kv[x + 1] == csr.kvIndptr[from + x + 1] - base;
    assert csr.pageIndices[base..][kv[x]..kv[x + 1]] == csr.pageIndices[csr.kvIndptr[from + x]..csr.kvIndptr[from + x
           + 1]];
  }

  lemma PrefillIncreases(c: Config, rs: seq<Req>, n: nat)
    requires Ready(c, rs, n)
    ensures Increasing(PrefillPart(Arrays(c, rs, n).common, BatchCsr(c, rs, n)).qIndptr)
  {
    hide QueryStarts, FlatTables, PrefixSums, TableSizes, PaddedTables, Covered, LastPageLens, TableCounts, MaxTable,
         NewTokens;
    QueriesIncrease(c, rs, n);
  }

  /** Decode rows follow one another, one query row each, right behind the prefill tokens. */
  lemma {:induction false} DecodeStarts(c: Config, rs: seq<Req>, n: nat, x: nat)
    requires Ready(c, rs, n) && n + x <= |rs|
    ensures QueryStarts(rs)[n + x] == NewTokens(rs[..n]) + x
  {
    if x > 0 {
      DecodeStarts(c, rs, n, x - 1);
      QueryStartNext(rs, n + x - 1);
    }
  }

  /** Query row `n` of request `x`, in the unified plan. */
  lemma UnifiedReads(c: Config, rs: seq<Req>, n: nat, x: nat, t: int)
    requires Ready(c, rs, n) && x < |rs| && QueryStarts(rs)[x] <= t < QueryStarts(rs)[x] + rs[x].newToks
    ensures Covered(c, rs[x]) && rs[x].cached + (t - QueryStarts(rs)[x]) < rs[x].Context()
    ensures WrapperReads(c, Unified(BatchCsr(c, rs, n)), t)
            == ContextSlots(c, rs[x], rs[x].cached + (t - QueryStarts(rs)[x]))
  {
    hide QueryStarts, WrapperReads, RowIs;
    UnifiedRow(c, rs, n, x);
    QueriesIncrease(c, rs, n);
    RowReads(c, Unified(BatchCsr(c, rs, n)), x, rs[x], QueryStarts(rs)[x], t);
  }

  /** The split plan: a prefill row is read from the prefill slice, a decode row from the rebased decode slice,
      and both read what the unified plan reads. */
  lemma SplitReads(c: Config, rs: seq<Req>, n: nat, x: nat, t: int)
    requires Ready(c, rs, n) && x < |rs| && QueryStarts(rs)[x] <= t < QueryStarts(rs)[x] + rs[x].newToks
    ensures Covered(c, rs[x]) && rs[x].cached + (t - QueryStarts(rs)[x]) < rs[x].Context()
    ensures t < NewTokens(rs[..n]) <==> x < n
    ensures var m, csr := Arrays(c, rs, n).common, BatchCsr(c, rs, n);
            (if x < n then WrapperReads(c, PrefillPart(m, csr), t)
             else WrapperReads(c, DecodePart(m, csr, n, csr.numPrefillPages), t - NewTokens(rs[..n])))
            == ContextSlots(c, rs[x], rs[x].cached + (t - QueryStarts(rs)[x]))
  {
    hide QueryStarts, WrapperReads, RowIs, Arrays, PrefillPart, DecodePart, NewTokens;
    var m, csr := Arrays(c, rs, n).common, BatchCsr(c, rs, n);
    DecodeStarts(c, rs, n, 0);
    if x < n {
      PrefillRow(c, rs, n, x);
      PrefillIncreases(c, rs, n);
      RowReads(c, PrefillPart(m, csr), x, rs[x], QueryStarts(rs)[x], t);
      QueryStartNext(rs, x);
      StartsOrder(c, rs, n, x + 1, n);
    } else {
      DecodeStarts(c, rs, n, x - n);
      DecodeRow(c, rs, n, n, x - n);
      DecodeIncreases(m, csr, n, csr.numPrefillPages);
      RowReads(c, DecodePart(m, csr, n, csr.numPrefillPages), x - n, rs[x], x - n, t - NewTokens(rs[..n]));
    }
  }

  lemma StartsOrder(c: Config, rs: seq<Req>, n: nat, x: nat, y: nat)
    requires Ready(c, rs, n) && x <= y <= |rs|
    ensures QueryStarts(rs)[x] <= QueryStarts(rs)[y]
  {
    if x < y { StartsIncrease(rs, x, y); }
  }

  lemma DecodeIncreases(m: Common, csr: Csr, from: int, base: int)
    ensures Increasing(DecodePart(m, csr, from, base).qIndptr)
  {
  }

  /** The route taken for a scheduled batch, and that none of the checks on the way objects. */
  lemma PlanOfBatch(c: Config, rs: seq<Req>, n: nat, unified: bool, trusted: bool)
    requires Ready(c, rs, n)
    ensures var m, csr := Arrays(c, rs, n).common, BatchCsr(c, rs, n);
            BuildPlan(c, m.(trusted := trusted), unified) == Ok(
              if n == 0 then Decode(DecodePart(m, csr, 0, 0))
              else if n == |rs| then Prefill(Unified(csr))
              else if unified then MixedUnified(Unified(csr))
              else MixedSplit(PrefillPart(m, csr), DecodePart(m, csr, n, csr.numPrefillPages), NewTokens(rs[..n])))
  {
    hide BuildCsr, QueryStarts, FlatTables, PrefixSums, PaddedTables, LastPageLens, TableCounts, NewTokens, FlatSlots,
         FlatTokens, FlatPositions;
    var m, csr := Arrays(c, rs, n).common, BatchCsr(c, rs, n);
    TrustedAgrees(c, rs, n);
    ArraysShape(c, rs, n);
    EnoughRows(c, rs, n);
    OffsetAt(c, rs, n, 0);
    OffsetAt(c, rs, n, |rs|);
    assert rs[..|rs|] == rs;
    ContentStart(rs);
  }

  lemma ContentStart(rs: seq<Req>)
    ensures QueryStarts(rs)[0] == 0
  {
  }

  /** Whichever route a scheduled batch takes, each query row reads exactly the slots of its own context up to
      itself. */
  lemma PlanReadsContext(c: Config, rs: seq<Req>, n: nat, unified: bool, x: nat, t: int)
    requires Ready(c, rs, n) && x < |rs| && QueryStarts(rs)[x] <= t < QueryStarts(rs)[x] + rs[x].newToks
    ensures BuildPlan(c, Arrays(c, rs, n).common, unified).Ok?
    ensures Covered(c, rs[x]) && rs[x].cached + (t - QueryStarts(rs)[x]) < rs[x].Context()
    ensures PlanReads(c, BuildPlan(c, Arrays(c, rs, n).common, unified).value, t)
            == ContextSlots(c, rs[x], rs[x].cached + (t - QueryStarts(rs)[x]))
  {
    hide BuildPlan, WrapperReads, QueryStarts, BatchCsr, PrefillPart, DecodePart, Unified, NewTokens;
    PlanOfBatch(c, rs, n, unified, true);
    ArraysShape(c, rs, n);
    if n == 0 {
      PureDecodeReads(c, rs, x, t);
    } else if n == |rs| || unified {
      UnifiedReads(c, rs, n, x, t);
    } else {
      SplitReads(c, rs, n, x, t);
    }
  }

  lemma PureDecodeReads(c: Config, rs: seq<Req>, x: nat, t: int)
    requires Ready(c, rs, 0) && x < |rs| && QueryStarts(rs)[x] <= t < QueryStarts(rs)[x] + rs[x].newToks
    ensures Covered(c, rs[x]) && rs[x].cached + (t - QueryStarts(rs)[x]) < rs[x].Context()
    ensures WrapperReads(c, DecodePart(Arrays(c, rs, 0).common, BatchCsr(c, rs, 0), 0, 0), t)
            == ContextSlots(c, rs[x], rs[x].cached + (t - QueryStarts(rs)[x]))
  {
    hide WrapperReads, QueryStarts, DecodePart, Unified, Arrays;
    SplitReads(c, rs, 0, x, t);
  }
}
