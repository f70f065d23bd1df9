/** FlashInfer metadata: validation, the page CSR built two ways, and the unified and split plans. */
module Metadata {
  import opened Arith
  import opened Requests
  import opened Addressing
  import opened ModelInput

  // ---------------------------------------------------------------- validation

  /** `_validate_common_metadata`: the checks that every batch undergoes. */
  predicate CommonValid(m: Common) {
    && m.numPrefillSeqs >= 0 && m.numDecodeSeqs >= 0 && m.numPrefillTokens >= 0 && m.numDecodeTokens >= 0
    && m.maxQLen >= 0 && m.maxKvLen >= 0 && m.numKvBlocks >= 0 && m.numPrefillKvBlocks >= 0
    && m.NumSeqs() > 0
    && m.numDecodeTokens == m.numDecodeSeqs
    && |m.queryStartLoc| == m.NumSeqs() + 1
    && |m.seqLens| == m.NumSeqs()
    && |m.slotMapping| == m.NumQueryTokens()
    && (!m.trusted ==> ContentValid(m))
    && (m.blockTables.Present? ==> |m.blockTables.value| == m.NumSeqs())
  }

  /** The checks on tensor contents, made only for metadata that did not come from the engine itself. */
  predicate ContentValid(m: Common)
    requires m.numPrefillSeqs >= 0 && m.numDecodeSeqs >= 0 && |m.queryStartLoc| == m.NumSeqs() + 1
             && |m.seqLens| == m.NumSeqs()
  {
    && m.queryStartLoc[0] == 0
    && m.queryStartLoc[m.NumSeqs()] == m.NumQueryTokens()
    && (forall x :: m.numPrefillSeqs <= x < m.NumSeqs() ==> m.queryStartLoc[x + 1] - m.queryStartLoc[x] == 1)
    && (forall x :: 0 <= x < m.NumSeqs() ==> m.seqLens[x] > 0)
  }

  datatype BatchType = PurePrefill | PureDecode | Mixed

  /** `_classify_batch` */
  function Classify(m: Common): Result<BatchType> {
    if m.numPrefillSeqs == 0 then (if m.numDecodeSeqs <= 0 then Err(InvalidInput) else Ok(PureDecode))
    else if m.numDecodeSeqs == 0 then Ok(PurePrefill)
    else Ok(Mixed)
  }

  // ---------------------------------------------------------------- the page CSR

  /** `FlashInferMetadata`: row `x` owns `pageIndices[kvIndptr[x]..kvIndptr[x + 1]]`. */
  datatype Csr = Csr(
    queryStartLoc: seq<int>,
    kvIndptr: seq<int>,
    pageIndices: seq<int>,
    lastPageLen: seq<int>,
    numPages: int,
    numPrefillPages: int)

  function Sum(s: seq<int>): int {
    if s == [] then 0 else Sum(Front(s)) + Back(s)
  }

  /** Prefix sums with a leading 0: what `cumsum` computes, and what the `offsets` loop must. */
  function PrefixSums(counts: seq<int>): (r: seq<int>)
    ensures |r| == |counts| + 1
  {
    seq(|counts| + 1, x requires 0 <= x < |counts| + 1 => Sum(counts[..x]))
  }

  /** Rows cut to their counts, one after the other. */
  function CutRows(rows: BlockTables, counts: seq<int>): seq<int>
    requires |rows| == |counts|
  {
    if rows == [] then []
    else CutRows(Front(rows), Front(counts)) + Slice(Back(rows), 0, Max(Back(counts), 0))
  }

  function Width(rows: BlockTables): nat {
    if rows == [] then 0 else |rows[0]|
  }

  function LastPageLens(c: Config, m: Common): (s: seq<int>)
    ensures |s| == |m.seqLens|
  {
    seq(|m.seqLens|, x requires 0 <= x < |m.seqLens| => (m.seqLens[x] - 1) % c.B + 1)
  }

  function PageCounts(c: Config, m: Common): (s: seq<int>)
    ensures |s| == |m.seqLens|
  {
    seq(|m.seqLens|, x requires 0 <= x < |m.seqLens| => (m.seqLens[x] + c.B - 1) / c.B)
  }

  /** The fast path: counts come with the batch and are only compared with each other. */
  function TrustedCsr(c: Config, m: Common): Result<Csr>
    requires CommonValid(m) && m.blockTables.Present?
  {
    var rows := m.blockTables.value;
    if |m.blockCounts| != m.NumSeqs() then Err(InvalidInput)
    else if exists x :: 0 <= x < |m.blockCounts| && !(0 < m.blockCounts[x] <= Width(rows)) then Err(InvalidInput)
    else
      var offsets := PrefixSums(m.blockCounts);
      if m.numKvBlocks != offsets[|m.blockCounts|] || m.numPrefillKvBlocks != offsets[m.numPrefillSeqs]
          then Err(InvalidInput)
      else Ok(Csr(m.queryStartLoc, offsets, CutRows(rows, m.blockCounts), LastPageLens(c, m), m.numKvBlocks,
                  m.numPrefillKvBlocks))
  }

  /** The checked path: counts come from the sequence lengths, and the selected page indices are looked at. */
  function UntrustedCsr(c: Config, m: Common): Result<Csr>
    requires CommonValid(m) && m.blockTables.Present?
  {
    var rows := m.blockTables.value;
    var counts := PageCounts(c, m);
    var indices := CutRows(rows, counts);
    if exists i :: 0 <= i < |indices| && indices[i] < 0 then Err(InvalidInput)
    else Ok(Csr(m.queryStartLoc, PrefixSums(counts), indices, LastPageLens(c, m), |indices|,
                Sum(counts[..m.numPrefillSeqs])))
  }

  /** `build_metadata`; `None` stands for a cacheless batch. */
  function BuildCsr(c: Config, m: Common): Result<Optional<Csr>> {
    if !CommonValid(m) then Err(InvalidInput)
    else if m.blockTables.Absent? then Ok(Absent)
    else
      var csr :- if m.trusted then TrustedCsr(c, m) else UntrustedCsr(c, m);
      Ok(Present(csr))
  }

  /** The `offsets` loop. */
  method Offsets(counts: seq<int>) returns (offsets: seq<int>)
    ensures offsets == PrefixSums(counts)
  {
    offsets := [0];
    var k := 0;
    while k < |counts|
      invariant 0 <= k <= |counts| && offsets == PrefixSums(counts)[..k + 1]
    {
      assert Front(counts[..k + 1]) == counts[..k];
      offsets := offsets + [Back(offsets) + counts[k]];
      k := k + 1;
    }
  }

  // ---------------------------------------------------------------- scheduled batches

  /** What the scheduler hands over: everybody has something to compute, pages to put it in, and decode comes last. */
  ghost predicate Ready(c: Config, rs: seq<Req>, n: nat) {
    && rs != [] && n <= |rs|
    && (forall x :: 0 <= x < |rs| ==> Covered(c, rs[x]) && rs[x].newToks > 0)
    && (forall x :: n <= x < |rs| ==> rs[x].newToks == 1)
  }

  lemma ReadyRow(c: Config, rs: seq<Req>, n: nat, x: nat)
    requires Ready(c, rs, n) && x < |rs|
    ensures rs[x].table != [] && rs[x].Context() > 0
    ensures |rs[x].table| == (rs[x].Context() + c.B - 1) / c.B
    ensures |rs[x].table| <= MaxTable(rs)
  {
    CeilBounds(rs[x].Context(), c.B);
    WidestTable(rs, x);
  }

  lemma {:induction false} WidestTable(rs: seq<Req>, x: nat)
    requires x < |rs|
    ensures |rs[x].table| <= MaxTable(rs)
  {
    if x < |rs| - 1 {
      WidestTable(Front(rs), x);
    }
  }

  lemma ReadyPrepared(c: Config, rs: seq<Req>, n: nat)
    requires Ready(c, rs, n)
    ensures Paged(rs) && Prepared(c, rs, Present(n)) == Ok(Arrays(c, rs, n))
  {
    ReadyRow(c, rs, n, 0);
    forall x | 0 <= x < |rs|
      ensures rs[x].table != []
    {
      ReadyRow(c, rs, n, x);
    }
  }

  lemma {:induction false} NewTokensSplit(rs: seq<Req>, n: nat)
    requires n <= |rs|
    ensures NewTokens(rs) == NewTokens(rs[..n]) + NewTokens(rs[n..])
  {
    if n < |rs| {
      NewTokensSplit(Front(rs), n);
      assert Front(rs)[..n] == rs[..n];
      assert Front(rs[n..]) == Front(rs)[n..];
    } else {
      assert rs[..n] == rs;
    }
  }

  lemma {:induction false} OneEach(rs: seq<Req>)
    requires forall x :: 0 <= x < |rs| ==> rs[x].newToks == 1
    ensures NewTokens(rs) == |rs|
  {
    if rs != [] {
      OneEach(Front(rs));
    }
  }

  lemma {:induction false} FlatLengths(c: Config, rs: seq<Req>)
    requires forall x :: 0 <= x < |rs| ==> Covered(c, rs[x]) && rs[x].table != []
    ensures |FlatSlots(c, rs)| == |FlatPositions(rs)| == |FlatTokens(rs)| == NewTokens(rs)
  {
    hide RequestSlots, Covered;
    if rs != [] {
      FlatLengths(c, Front(rs));
      IntervalsArePointwise(c, Back(rs));
      CoveredSlice(c, Back(rs));
    }
  }

  lemma CoveredSlice(c: Config, r: Req)
    requires Covered(c, r)
    ensures |Slice(r.tokens, r.cached, r.Context())| == r.newToks
  {
  }

  lemma {:induction false} TableSizesSum(rs: seq<Req>)
    ensures Sum(TableCounts(rs)) == TableSizes(rs)
  {
    if rs != [] {
      assert Front(TableCounts(rs)) == TableCounts(Front(rs));
      TableSizesSum(Front(rs));
    }
  }

  /** The engine's own metadata passes every check, those on tensor contents included. */
  lemma ArraysValid(c: Config, rs: seq<Req>, n: nat, trusted: bool)
    requires Ready(c, rs, n)
    ensures CommonValid(Arrays(c, rs, n).common.(trusted := trusted))
  {
    hide FlatSlots, FlatTokens, FlatPositions, MaxNew, MaxContext, PaddedTables, TableCounts, NewTokens, MaxTable;
    ReadyPrepared(c, rs, n);
    var m := Arrays(c, rs, n).common;
    NewTokensSplit(rs, n);
    OneEach(rs[n..]);
    forall x | 0 <= x < |rs|
      ensures rs[x].table != [] && m.seqLens[x] > 0
    {
      ReadyRow(c, rs, n, x);
    }
    FlatLengths(c, rs);
    ContentHolds(c, rs, n);
  }

  lemma ContentHolds(c: Config, rs: seq<Req>, n: nat)
    requires Ready(c, rs, n) && NewTokens(rs) == NewTokens(rs[..n]) + NewTokens(rs[n..])
    ensures QueryStarts(rs)[0] == 0 && QueryStarts(rs)[|rs|] == NewTokens(rs[..n]) + NewTokens(rs[n..])
    ensures forall x :: n <= x < |rs| ==> QueryStarts(rs)[x + 1] - QueryStarts(rs)[x] == 1
  {
    assert rs[..|rs|] == rs;
    forall x | n <= x < |rs|
      ensures QueryStarts(rs)[x + 1] - QueryStarts(rs)[x] == 1
    {
      QueryStartNext(rs, x);
    }
  }

  lemma QueryStartNext(rs: seq<Req>, x: nat)
    requires x < |rs|
    ensures QueryStarts(rs)[x + 1] == QueryStarts(rs)[x] + rs[x].newToks
  {
    assert Front(rs[..x + 1]) == rs[..x];
  }

  // ---------------------------------------------------------------- what the numbers of a batch mean

  lemma {:induction false} LongestNew(rs: seq<Req>)
    requires rs != []
    ensures forall x :: 0 <= x < |rs| ==> rs[x].newToks <= MaxNew(rs)
    ensures exists x :: 0 <= x < |rs| && rs[x].newToks == MaxNew(rs)
  {
    if |rs| == 1 {
      assert Front(rs) == [] && rs[0].newToks == MaxNew(rs);
    } else {
      LongestNew(Front(rs));
      var x :| 0 <= x < |Front(rs)| && Front(rs)[x].newToks == MaxNew(Front(rs));
      assert rs[x].newToks == MaxNew(rs) || Back(rs).newToks == MaxNew(rs);
      forall y | 0 <= y < |rs|
        ensures rs[y].newToks <= MaxNew(rs)
      {
        if y < |rs| - 1 { assert Front(rs)[y] == rs[y]; }
      }
    }
  }

  lemma {:induction false} LongestContext(rs: seq<Req>)
    requires rs != []
    ensures forall x :: 0 <= x < |rs| ==> rs[x].Context() <= MaxContext(rs)
    ensures exists x :: 0 <= x < |rs| && rs[x].Context() == MaxContext(rs)
  {
    if |rs| == 1 {
      assert Front(rs) == [] && rs[0].Context() == MaxContext(rs);
    } else {
      LongestContext(Front(rs));
      var x :| 0 <= x < |Front(rs)| && Front(rs)[x].Context() == MaxContext(Front(rs));
      assert rs[x].Context() == MaxContext(rs) || Back(rs).Context() == MaxContext(rs);
      forall y | 0 <= y < |rs|
        ensures rs[y].Context() <= MaxContext(rs)
      {
        if y < |rs| - 1 { assert Front(rs)[y] == rs[y]; }
      }
    }
  }

  /** The longest query and the longest context of a batch: nobody exceeds them, and somebody attains them. */
  lemma LengthsAttained(c: Config, rs: seq<Req>, n: nat)
    requires rs != [] && n <= |rs|
    ensures var m := Arrays(c, rs, n).common;
            && (forall x :: 0 <= x < |rs| ==> rs[x].newToks <= m.maxQLen && rs[x].Context() <= m.maxKvLen)
            && (exists x :: 0 <= x < |rs| && rs[x].newToks == m.maxQLen)
            && (exists x :: 0 <= x < |rs| && rs[x].Context() == m.maxKvLen)
  {
    hide MaxNew, MaxContext;
    LongestNew(rs);
    LongestContext(rs);
  }

  /** The other numbers: where each query starts, how long each context is, how many tokens and pages each half has. */
  lemma NumbersMean(c: Config, rs: seq<Req>, n: nat)
    requires n <= |rs|
    ensures var m := Arrays(c, rs, n).common;
            && m.numPrefillSeqs == n && m.numDecodeSeqs == |rs| - n
            && |m.queryStartLoc| == |rs| + 1 && m.queryStartLoc[0] == 0
            && (forall x :: 0 <= x < |rs| ==> m.queryStartLoc[x + 1] == m.queryStartLoc[x] + rs[x].newToks)
            && m.numPrefillTokens == m.queryStartLoc[n]
            && m.numPrefillTokens + m.numDecodeTokens == m.queryStartLoc[|rs|]
            && |m.seqLens| == |rs| && (forall x :: 0 <= x < |rs| ==> m.seqLens[x] == rs[x].Context())
    ensures var m := Arrays(c, rs, n).common;
            if Paged(rs) then
              && |m.blockCounts| == |rs| && (forall x :: 0 <= x < |rs| ==> m.blockCounts[x] == |rs[x].table|)
              && m.numKvBlocks == Sum(m.blockCounts) && m.numPrefillKvBlocks == Sum(m.blockCounts[..n])
            else m.blockTables.Absent? && m.blockCounts == [] && m.numKvBlocks == 0 && m.numPrefillKvBlocks == 0
    ensures Arrays(c, rs, n).needLogits.Present? <==> Paged(rs)
  {
    hide FlatSlots, FlatTokens, FlatPositions, MaxNew, MaxContext, PaddedTables, NewTokens, TableSizes, LogitsRows;
    NewTokensSplit(rs, n);
    assert rs[..|rs|] == rs;
    forall x | 0 <= x < |rs|
      ensures QueryStarts(rs)[x + 1] == QueryStarts(rs)[x] + rs[x].newToks
    {
      QueryStartNext(rs, x);
    }
    NoTokens(rs);
    TableSizesSum(rs);
    TableSizesSum(rs[..n]);
    SumUpTo(rs, n);
  }

  lemma NoTokens(rs: seq<Req>)
    ensures QueryStarts(rs)[0] == 0
  {
  }

  /** What `prepare_model_input` objects to, and with which exception. */
  lemma PreparedObjects(c: Config, rs: seq<Req>, numPrefill: Optional<int>)
    ensures var n := if numPrefill.Present? then numPrefill.value else |rs|;
            var mixed := (exists x :: 0 <= x < |rs| && rs[x].table != []) && exists x ::
                0 <= x < |rs| && rs[x].table == [];
            var wide := 0 <= n <= |rs| && exists x :: n <= x < |rs| && rs[x].newToks != 1;
            && (Prepared(c, rs, numPrefill) == Err(AssertionFailed) <==> rs != [] && wide)
            && (Prepared(c, rs, numPrefill) == Err(InvalidInput) <==>
                  rs == [] || !(0 <= n <= |rs|) || (!wide && mixed))
            && (Prepared(c, rs, numPrefill).Ok? <==> rs != [] && 0 <= n <= |rs| && !wide && !mixed)
  {
    hide Arrays;
  }

  // ---------------------------------------------------------------- trusted equals untrusted

  /** Block counts are the page counts of the sequence lengths. */
  lemma CountsAgree(c: Config, rs: seq<Req>, n: nat)
    requires Ready(c, rs, n)
    ensures PageCounts(c, Arrays(c, rs, n).common) == TableCounts(rs)
  {
    hide FlatSlots, FlatTokens, FlatPositions, MaxNew, MaxContext, PaddedTables, NewTokens;
    forall x | 0 <= x < |rs|
      ensures |rs[x].table| == (rs[x].Context() + c.B - 1) / c.B
    {
      ReadyRow(c, rs, n, x);
    }
  }

  /** All pages of all requests, one table after the other. */
  function FlatTables(rs: seq<Req>): seq<int> {
    if rs == [] then [] else FlatTables(Front(rs)) + PaddedRow(Back(rs).table, 0)
  }

  lemma {:induction false} CutPadded(rs: seq<Req>, width: nat)
    ensures CutRows(PaddedRows(rs, width), TableCounts(rs)) == FlatTables(rs)
    decreases |rs|
  {
    if rs != [] {
      var rows := PaddedRows(rs, width);
      CutPadded(Front(rs), width);
      assert Front(rows) == PaddedRows(Front(rs), width);
      assert Front(TableCounts(rs)) == TableCounts(Front(rs));
      assert Slice(Back(rows), 0, |Back(rs).table|) == PaddedRow(Back(rs).table, 0);
    }
  }

  lemma {:induction false} FlatTablesPages(rs: seq<Req>)
    ensures |FlatTables(rs)| == TableSizes(rs)
    ensures forall i :: 0 <= i < |FlatTables(rs)| ==> FlatTables(rs)[i] >= 0
  {
    if rs != [] {
      FlatTablesPages(Front(rs));
    }
  }

  /** The CSR of a scheduled batch. */
  function BatchCsr(c: Config, rs: seq<Req>, n: nat): Csr
    requires n <= |rs|
  {
    Csr(QueryStarts(rs), PrefixSums(TableCounts(rs)), FlatTables(rs), LastPageLens(c, Arrays(c, rs, n).common),
        TableSizes(rs), TableSizes(rs[..n]))
  }

  lemma WidthOf(rs: seq<Req>)
    requires rs != []
    ensures Width(PaddedTables(rs)) == MaxTable(rs)
  {
    WidestTable(rs, 0);
  }

  lemma SumUpTo(rs: seq<Req>, n: nat)
    requires n <= |rs|
    ensures TableCounts(rs)[..n] == TableCounts(rs[..n])
    ensures PrefixSums(TableCounts(rs))[n] == TableSizes(rs[..n])
  {
    TableSizesSum(rs[..n]);
  }

  lemma TrustedIsBatchCsr(c: Config, rs: seq<Req>, n: nat)
    requires Ready(c, rs, n) && CommonValid(Arrays(c, rs, n).common) && Paged(rs)
    ensures TrustedCsr(c, Arrays(c, rs, n).common) == Ok(BatchCsr(c, rs, n))
  {
    hide FlatSlots, FlatTokens, FlatPositions, MaxNew, MaxContext, NewTokens, CommonValid, Paged, LastPageLens, CutRows,
         PrefixSums, TableCounts, QueryStarts;
    var m := Arrays(c, rs, n).common;
    WidthOf(rs);
    CountOf(rs);
    forall x | 0 <= x < |rs|
      ensures 0 < TableCounts(rs)[x] <= MaxTable(rs)
    {
      ReadyRow(c, rs, n, x);
    }
    SumUpTo(rs, n);
    SumUpTo(rs, |rs|);
    assert rs[..|rs|] == rs;
    CutPadded(rs, MaxTable(rs));
    assert m.blockTables.value == PaddedTables(rs);
  }

  lemma CountOf(rs: seq<Req>)
    ensures forall x :: 0 <= x < |rs| ==> TableCounts(rs)[x] == |rs[x].table|
  {
  }

  lemma UntrustedIsBatchCsr(c: Config, rs: seq<Req>, n: nat)
    requires Ready(c, rs, n) && Paged(rs)
    requires CommonValid(Arrays(c, rs, n).common.(trusted := false))
    ensures UntrustedCsr(c, Arrays(c, rs, n).common.(trusted := false)) == Ok(BatchCsr(c, rs, n))
  {
    hide FlatSlots, FlatTokens, FlatPositions, MaxNew, MaxContext, NewTokens, CommonValid, Paged, CutRows, TableCounts,
         QueryStarts;
    var m := Arrays(c, rs, n).common;
    CountsAgree(c, rs, n);
    SameCounts(c, m);
    CutPadded(rs, MaxTable(rs));
    FlatTablesPages(rs);
    SumUpTo(rs, n);
    TableSizesSum(rs[..n]);
  }

  lemma SameCounts(c: Config, m: Common)
    ensures PageCounts(c, m.(trusted := false)) == PageCounts(c, m)
    ensures LastPageLens(c, m.(trusted := false)) == LastPageLens(c, m)
  {
  }

  /** The fast path agrees with the checked path on every scheduled batch, and the checked path objects to nothing. */
  lemma TrustedAgrees(c: Config, rs: seq<Req>, n: nat)
    requires Ready(c, rs, n)
    ensures var m := Arrays(c, rs, n).common;
            BuildCsr(c, m) == BuildCsr(c, m.(trusted := false)) == Ok(Present(BatchCsr(c, rs, n)))
  {
    hide Arrays, CommonValid, TrustedCsr, UntrustedCsr;
    ReadyPrepared(c, rs, n);
    ArraysValid(c, rs, n, true);
    ArraysValid(c, rs, n, false);
    TrustedIsBatchCsr(c, rs, n);
    UntrustedIsBatchCsr(c, rs, n);
    ArraysShape(c, rs, n);
  }

  lemma ArraysShape(c: Config, rs: seq<Req>, n: nat)
    requires n <= |rs|
    ensures var m := Arrays(c, rs, n).common;
            m.trusted && m == m.(trusted := true) && (Paged(rs) ==> m.blockTables.Present?)
  {
  }

  /** What the checked path guarantees about metadata from elsewhere that it accepts. */
  lemma CheckedMeans(c: Config, m: Common)
    requires !m.trusted && BuildCsr(c, m).Ok?
    ensures m.numPrefillSeqs >= 0 && m.numDecodeSeqs >= 0 && m.NumSeqs() > 0 && m.numDecodeTokens == m.numDecodeSeqs
    ensures |m.queryStartLoc| == m.NumSeqs() + 1 && m.queryStartLoc[0] == 0
            && m.queryStartLoc[m.NumSeqs()] == m.NumQueryTokens() == |m.slotMapping|
    ensures forall x :: m.numPrefillSeqs <= x < m.NumSeqs() ==> m.queryStartLoc[x + 1] == m.queryStartLoc[x] + 1
    ensures |m.seqLens| == m.NumSeqs() && forall x :: 0 <= x < m.NumSeqs() ==> m.seqLens[x] > 0
    ensures BuildCsr(c, m).value.Present? <==> m.blockTables.Present?
    ensures m.blockTables.Present? ==>
              var csr := BuildCsr(c, m).value.value;
              && |m.blockTables.value| == m.NumSeqs()
              && csr.numPages == |csr.pageIndices| && (forall i ::
                   0 <= i < |csr.pageIndices| ==> csr.pageIndices[i] >= 0)
              && |csr.kvIndptr| == m.NumSeqs() + 1 && csr.kvIndptr[0] == 0
              && (forall x :: 0 <= x < m.NumSeqs() ==>
                    && csr.kvIndptr[x] < csr.kvIndptr[x + 1]
                    && csr.kvIndptr[x + 1] - csr.kvIndptr[x] == (m.seqLens[x] + c.B - 1) / c.B)
              && csr.numPrefillPages == csr.kvIndptr[m.numPrefillSeqs]
  {
    hide CutRows, PrefixSums, PageCounts, LastPageLens, Sum;
    if m.blockTables.Present? {
      PageOffsets(c, m);
    }
  }

  lemma PageOffsets(c: Config, m: Common)
    requires forall x :: 0 <= x < |m.seqLens| ==> m.seqLens[x] > 0
    ensures var offsets := PrefixSums(PageCounts(c, m));
            && offsets[0] == 0
            && (forall x :: 0 <= x < |m.seqLens| ==>
                  && offsets[x] < offsets[x + 1]
                  && offsets[x + 1] - offsets[x] == (m.seqLens[x] + c.B - 1) / c.B)
    ensures forall x :: 0 <= x <= |m.seqLens| ==> PrefixSums(PageCounts(c, m))[x] == Sum(PageCounts(c, m)[..x])
  {
    hide Sum;
    var counts := PageCounts(c, m);
    forall x | 0 <= x < |m.seqLens|
      ensures counts[x] > 0 && PrefixSums(counts)[x + 1] == PrefixSums(counts)[x] + counts[x]
    {
      PrefixStep(counts, x);
      CeilBounds(m.seqLens[x], c.B);
    }
    assert counts[..0] == [];
    NoCounts();
  }

  lemma NoCounts()
    ensures Sum([]) == 0
  {
  }

  /** What the fast path asks of metadata that the engine vouches for. */
  lemma TrustedMeans(c: Config, m: Common)
    requires m.trusted && m.blockTables.Present? && CommonValid(m)
    ensures BuildCsr(c, m).Ok? <==>
              && |m.blockCounts| == m.NumSeqs()
              && (forall x :: 0 <= x < |m.blockCounts| ==> 0 < m.blockCounts[x] <= Width(m.blockTables.value))
              && m.numKvBlocks == Sum(m.blockCounts) && m.numPrefillKvBlocks == Sum(m.blockCounts[..m.numPrefillSeqs])
    ensures BuildCsr(c, m).Err? ==> BuildCsr(c, m).error == InvalidInput
  {
    hide CutRows, LastPageLens, Sum, Width;
    assert m.blockCounts[..|m.blockCounts|] == m.blockCounts;
  }

  lemma PrefixStep(counts: seq<int>, x: nat)
    requires x < |counts|
    ensures PrefixSums(counts)[x + 1] == PrefixSums(counts)[x] + counts[x]
  {
    assert Front(counts[..x + 1]) == counts[..x];
  }

  // ---------------------------------------------------------------- each row decodes back

  function Row(kvIndptr: seq<int>, indices: seq<int>, x: nat): seq<int>
    requires x + 1 < |kvIndptr|
  {
    if 0 <= kvIndptr[x] <= kvIndptr[x + 1] <= |indices| then indices[kvIndptr[x]..kvIndptr[x + 1]] else []
  }

  lemma {:induction false} FlatTablesAt(rs: seq<Req>, x: nat)
    requires x < |rs|
    ensures TableSizes(rs[..x]) + |rs[x].table| == TableSizes(rs[..x + 1]) <= |FlatTables(rs)|
    ensures FlatTables(rs)[TableSizes(rs[..x])..TableSizes(rs[..x + 1])] == PaddedRow(rs[x].table, 0)
    decreases |rs|
  {
    FlatTablesPages(rs);
    FlatTablesPages(Front(rs));
    assert Front(rs[..x + 1]) == rs[..x];
    if x == |rs| - 1 {
      assert rs[..x + 1] == rs && rs[..x] == Front(rs);
    } else {
      FlatTablesAt(Front(rs), x);
      assert Front(rs)[..x] == rs[..x] && Front(rs)[..x + 1] == rs[..x + 1];
    }
  }

  /** Row `x` of the CSR is the block table of request `x`, and its pages hold exactly `seq_len` tokens. */
  lemma RowDecodes(c: Config, rs: seq<Req>, n: nat, x: nat)
    requires Ready(c, rs, n) && x < |rs|
    ensures var csr := BatchCsr(c, rs, n);
            && Row(csr.kvIndptr, csr.pageIndices, x) == PaddedRow(rs[x].table, 0)
            && |PaddedRow(rs[x].table, 0)| == |rs[x].table| >= 1
            && 1 <= csr.lastPageLen[x] <= c.B
            && Start(|rs[x].table| - 1, c.B) + csr.lastPageLen[x] == rs[x].Context()
  {
    hide FlatSlots, FlatTokens, FlatPositions, MaxNew, MaxContext, NewTokens, FlatTables, TableSizes, TableCounts,
         PrefixSums, PaddedTables, Covered, MaxTable, Paged, QueryStarts, LogitsRows, Ready;
    ReadyRow(c, rs, n, x);
    FlatTablesAt(rs, x);
    SumUpTo(rs, x);
    SumUpTo(rs, x + 1);
    LastPage(rs[x].Context(), c.B);
  }

  lemma LastPage(n: nat, B: pos)
    requires n > 0
    ensures 1 <= (n - 1) % B + 1 <= B
    ensures Ceil(n, B) >= 1 && Start(Ceil(n, B) - 1, B) + (n - 1) % B + 1 == n
  {
    CeilBounds(n, B);
    DivStart(n - 1, B);
    DivUnique(n - 1, B, Ceil(n, B) - 1);
  }
}
