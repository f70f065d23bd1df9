/** Exactly when `generate` ends: unless a request is thrown out of a pool it has filled, fills it again to the last
    slot, and finds itself where it was. */
module Cycles {
  import opened Arith
  import opened Requests
  import opened CacheInvariant
  import opened KvMemory
  import opened Boundary
  import opened Scheduling
  import opened SchedulerState
  import opened Postprocessing
  import opened Steps
  import opened Forward
  import opened Engine
  import opened Runs
  import opened Termination
  import opened Ownership
  import opened Refill
  import opened Drops

  // ---------------------------------------------------------------- does the budget lead back?

  /** Whole budgets from `k` computed tokens on lead to exactly the last slot of the pool, and before that they stay
      inside the prompt of `p` tokens. */
  predicate Fills(c: Config, p: nat, k: nat)
    decreases Start(c.numBlocks, c.B) - k
  {
    && c.maxBatch > 0 && k + c.maxBatch <= Start(c.numBlocks, c.B)
    && if k + c.maxBatch < p then Fills(c, p, k + c.maxBatch) else k + c.maxBatch == Start(c.numBlocks, c.B)
  }

  /** So does what is left after `k` tokens. */
  predicate OnCourse(c: Config, p: nat, k: nat) {
    if k < p then Fills(c, p, k) else k == Start(c.numBlocks, c.B)
  }

  predicate Divides(m: nat, a: nat) {
    m > 0 && a % m == 0
  }

  /** The same at a glance. */
  predicate Refills(c: Config, p: nat, k: nat) {
    var slots := Start(c.numBlocks, c.B);
    && k < slots && p <= slots && Divides(c.maxBatch, slots - k)
    && (slots - k == c.maxBatch || slots - c.maxBatch < p)
  }

  lemma DividesNone(a: nat)
    ensures !Divides(0, a)
  {
  }

  lemma DividesStep(m: nat, a: nat)
    requires 0 < m <= a
    ensures Divides(m, a) <==> Divides(m, a - m)
  {
    var q := (a - m) / m;
    DivStart(a - m, m);
    DivUnique(a, m, q + 1);
    DivStart(a, m);
  }

  lemma DividesSmall(m: nat, a: nat)
    requires a < m
    ensures Divides(m, a) <==> a == 0
  {
    DivUnique(a, m, 0);
    DivStart(a, m);
  }

  lemma {:induction false} RefillsExactly(c: Config, p: nat, k: nat)
    ensures Fills(c, p, k) <==> Refills(c, p, k)
    decreases Start(c.numBlocks, c.B) - k
  {
    hide Divides, Start;
    var slots := Start(c.numBlocks, c.B);
    var m := c.maxBatch;
    if slots <= k {
    } else if m == 0 {
      DividesNone(slots - k);
    } else if slots < k + m {
      DividesSmall(m, slots - k);
    } else {
      DividesStep(m, slots - k);
      if k + m < p {
        RefillsExactly(c, p, k + m);
      } else if slots - k - m < m {
        DividesSmall(m, slots - k - m);
      }
    }
  }

  // ---------------------------------------------------------------- one request in the pool

  /** Off course, it ends. */
  lemma {:induction false} CourseEnds(net: Net, c: Config, e: Engine, led: Ledger, kv: Memory, x: nat, k: nat)
    requires Filling(c, e.sys, led, kv, x, k) && Holds(net, e.mems, kv) && !OnCourse(c, e.sys.Get(x).numPrompt, k)
    ensures k <= Start(c.numBlocks, c.B) && EndsWithin(net, c, e, Start(c.numBlocks, c.B) - k + 1)
    decreases Start(c.numBlocks, c.B) - k
  {
    hide Nearly, Holds, Step, OwnsLast;
    if k < e.sys.Get(x).numPrompt {
      var led', kv' := FillChunk(net, c, e, led, kv, x, k);
      if Step(net, c, e).Ok? {
        CourseEnds(net, c, Step(net, c, e).value, led', kv', x, k + c.maxBatch);
        EndsLater(net, c, Step(net, c, e).value, Start(c.numBlocks, c.B) - k - c.maxBatch + 1,
                  Start(c.numBlocks, c.B) - k);
      }
    } else {
      FillStuck(net, c, e, led, kv, x, k);
    }
  }

  lemma {:induction false} EndsLater(net: Net, c: Config, e: Engine, m: nat, n: nat)
    requires EndsWithin(net, c, e, m) && m <= n
    ensures EndsWithin(net, c, e, n)
    decreases m
  {
    hide Step;
    if !e.sys.IsFinished() && Step(net, c, e).Ok? {
      EndsLater(net, c, Step(net, c, e).value, m - 1, n - 1);
    }
  }

  /** What the request will find again, once it has filled the pool. */
  function FoundAgain(c: Config, r: Req): nat {
    Start(FirstRepeat(c, r.tokens, c.numBlocks), c.B)
  }

  lemma SameTaskFinds(c: Config, r: Req, r': Req)
    requires SameTask(r, r')
    ensures FoundAgain(c, r') == FoundAgain(c, r) && r'.numPrompt == r.numPrompt
  {
  }

  lemma FillingRuns(c: Config, s: Sys, led: Ledger, kv: Memory, x: nat, k: nat)
    requires Filling(c, s, led, kv, x, k)
    ensures Nearly(c, s, led, kv) && !s.IsFinished() && x < |s.reqs| && c.chunked && c.maxBatch > 0
    ensures k <= Start(c.numBlocks, c.B)
    ensures k >= s.Get(x).numPrompt ==> s.chunked.None?
  {
    hide Nearly, OwnsLast;
  }

  /** On course, the request is thrown out of the full pool, and the rest depends on what it finds then. */
  lemma BackAgain(net: Net, c: Config, e: Engine, led: Ledger, kv: Memory, x: nat) returns (led': Ledger, kv': Memory)
    requires Filling(c, e.sys, led, kv, x, Start(c.numBlocks, c.B)) && Holds(net, e.mems, kv)
    requires OnCourse(c, e.sys.Get(x).numPrompt, Start(c.numBlocks, c.B))
    ensures var r := e.sys.Get(x);
            var k := FoundAgain(c, r) + c.maxBatch;
            && (Step(net, c, e).Ok? <==> k <= Start(c.numBlocks, c.B))
            && (Step(net, c, e).Ok? ==>
                  var e' := Step(net, c, e).value;
                  Filling(c, e'.sys, led', kv', x, k) && Holds(net, e'.mems, kv') && SameTask(r, e'.sys.Get(x)))
            && SafeTick(c, e.sys)
  {
    hide Nearly, Holds, Step, OwnsLast, Keeps, PreemptTail, Found, DecodeFits;
    NextFound(c, e.sys, led, kv, x);
    led', kv' := DropNext(net, c, e, led, kv, x);
    DropRests(c, e.sys, led, kv);
  }

  /** On course, but not once more: the loop ends after the next drop. */
  lemma {:induction false} CourseEndsLater(net: Net, c: Config, e: Engine, led: Ledger, kv: Memory, x: nat, k: nat)
    requires Filling(c, e.sys, led, kv, x, k) && Holds(net, e.mems, kv)
    requires !Fills(c, e.sys.Get(x).numPrompt, FoundAgain(c, e.sys.Get(x)))
    ensures k <= Start(c.numBlocks, c.B) && EndsWithin(net, c, e, 2 * Start(c.numBlocks, c.B) - k + 2)
    decreases Start(c.numBlocks, c.B) - k
  {
    hide Nearly, Holds, Step, Filling, FoundAgain;
    var slots := Start(c.numBlocks, c.B);
    var r := e.sys.Get(x);
    FillingRuns(c, e.sys, led, kv, x, k);
    if !OnCourse(c, r.numPrompt, k) {
      CourseEnds(net, c, e, led, kv, x, k);
      EndsLater(net, c, e, slots - k + 1, 2 * slots - k + 2);
    } else if k < r.numPrompt {
      var led', kv' := FillChunk(net, c, e, led, kv, x, k);
      var e' := Step(net, c, e).value;
      SameTaskFinds(c, r, e'.sys.Get(x));
      CourseEndsLater(net, c, e', led', kv', x, k + c.maxBatch);
      EndsLater(net, c, e', 2 * slots - k - c.maxBatch + 2, 2 * slots - k + 1);
    } else {
      var led', kv' := BackAgain(net, c, e, led, kv, x);
      if Step(net, c, e).Ok? {
        var e' := Step(net, c, e).value;
        SameTaskFinds(c, r, e'.sys.Get(x));
        CourseEnds(net, c, e', led', kv', x, FoundAgain(c, r) + c.maxBatch);
        EndsLater(net, c, e', slots - FoundAgain(c, r) - c.maxBatch + 1, slots + 1);
      }
    }
  }

  /** On course, and always once more: the loop has no end, and no tick fails. */
  lemma {:induction false} CourseLoops(net: Net, c: Config, e: Engine, led: Ledger, kv: Memory, x: nat, k: nat, n: nat)
    requires Filling(c, e.sys, led, kv, x, k) && Holds(net, e.mems, kv)
    requires OnCourse(c, e.sys.Get(x).numPrompt, k) && Fills(c, e.sys.Get(x).numPrompt, FoundAgain(c, e.sys.Get(x)))
    ensures !EndsWithin(net, c, e, n) && SafeGenerate(net, c, e, n)
    decreases n
  {
    hide Nearly, Holds, Step, Filling, FoundAgain, DecodeFits;
    var r := e.sys.Get(x);
    FillingRuns(c, e.sys, led, kv, x, k);
    if k < r.numPrompt {
      var led', kv' := FillChunk(net, c, e, led, kv, x, k);
      ChunkIsSafe(c, e.sys, led, kv, x, k);
      var e' := Step(net, c, e).value;
      SameTaskFinds(c, r, e'.sys.Get(x));
      if n > 0 { CourseLoops(net, c, e', led', kv', x, k + c.maxBatch, n - 1); }
    } else {
      var led', kv' := BackAgain(net, c, e, led, kv, x);
      var e' := Step(net, c, e).value;
      SameTaskFinds(c, r, e'.sys.Get(x));
      if n > 0 { CourseLoops(net, c, e', led', kv', x, FoundAgain(c, r) + c.maxBatch, n - 1); }
    }
  }

  /** A lone request that fills the pool: the loop goes on for ever exactly if it is on course, and will be again. */
  lemma CourseExactly(net: Net, c: Config, e: Engine, led: Ledger, kv: Memory, x: nat, k: nat, n: nat)
    requires Filling(c, e.sys, led, kv, x, k) && Holds(net, e.mems, kv)
    ensures k <= Start(c.numBlocks, c.B)
    ensures var p := e.sys.Get(x).numPrompt;
            if OnCourse(c, p, k) && Fills(c, p, FoundAgain(c, e.sys.Get(x))) then
              !EndsWithin(net, c, e, n) && SafeGenerate(net, c, e, n)
            else EndsWithin(net, c, e, 2 * Start(c.numBlocks, c.B) - k + 2)
  {
    hide Holds, Filling, FoundAgain, OnCourse, Fills, EndsWithin, SafeGenerate;
    var p, slots := e.sys.Get(x).numPrompt, Start(c.numBlocks, c.B);
    FillingRuns(c, e.sys, led, kv, x, k);
    if !Fills(c, p, FoundAgain(c, e.sys.Get(x))) {
      CourseEndsLater(net, c, e, led, kv, x, k);
    } else if OnCourse(c, p, k) {
      CourseLoops(net, c, e, led, kv, x, k, n);
    } else {
      CourseEnds(net, c, e, led, kv, x, k);
      EndsLater(net, c, e, slots - k + 1, 2 * slots - k + 2);
    }
  }

  lemma ChunkIsSafe(c: Config, s: Sys, led: Ledger, kv: Memory, x: nat, k: nat)
    requires Filling(c, s, led, kv, x, k) && k < s.Get(x).numPrompt
    ensures SafeTick(c, s)
  {
    hide Nearly, OwnsLast, DecodeFits;
  }

  // ---------------------------------------------------------------- the decision at a drop

  /** The dropped request will fill the pool again to the last slot, now and ever after. */
  predicate GoesOn(c: Config, s: Sys, x: nat) {
    && c.chunked
    && Refills(c, s.Get(x).numPrompt, Found(c, AfterPreemption(c, s), x))
    && Refills(c, s.Get(x).numPrompt, FoundAgain(c, s.Get(x)))
  }

  function DropBound(c: Config): nat {
    2 * Start(c.numBlocks, c.B) + 3
  }

  lemma LoopOnce(net: Net, c: Config, e: Engine, n: nat)
    requires !e.sys.IsFinished() && SafeTick(c, e.sys)
    ensures !EndsWithin(net, c, e, 0) && SafeGenerate(net, c, e, 0)
    ensures Step(net, c, e).Err? ==> EndsWithin(net, c, e, n + 1)
    ensures Step(net, c, e).Ok? ==>
              var e' := Step(net, c, e).value;
              && (EndsWithin(net, c, e, n + 1) <==> EndsWithin(net, c, e', n))
              && (SafeGenerate(net, c, e, n + 1) <==> SafeGenerate(net, c, e', n))
  {
    hide Step, SafeTick;
  }

  /** When preemption throws out everybody while there is no chunk, the first request has filled the pool, and what it
      finds again decides whether the loop ends at all. */
  lemma DropExactly(net: Net, c: Config, e: Engine, led: Ledger, kv: Memory, x: nat, n: nat)
    requires Nearly(c, e.sys, led, kv) && Holds(net, e.mems, kv) && !Keeps(c, e.sys) && x == e.sys.running[0]
    ensures if GoesOn(c, e.sys, x) then !EndsWithin(net, c, e, n) && SafeGenerate(net, c, e, n)
            else EndsWithin(net, c, e, DropBound(c))
  {
    hide Nearly, Holds, Step, Filling, FoundAgain, DecodeFits, Keeps, AfterPreemption, Found, Refills, EndsWithin,
         SafeGenerate, Schedule, ScheduleFrom;
    var r := e.sys.Get(x);
    var k := Found(c, AfterPreemption(c, e.sys), x);
    RefillsExactly(c, r.numPrompt, k);
    RefillsExactly(c, r.numPrompt, FoundAgain(c, r));
    var led', kv' := DropNext(net, c, e, led, kv, x);
    DropRests(c, e.sys, led, kv);
    LoopOnce(net, c, e, DropBound(c) - 1);
    if Step(net, c, e).Ok? {
      var e' := Step(net, c, e).value;
      SameTaskFinds(c, r, e'.sys.Get(x));
      if n > 0 { LoopOnce(net, c, e, n - 1); }
      CourseExactly(net, c, e', led', kv', x, k + c.maxBatch, if n > 0 then n - 1 else 0);
      if !GoesOn(c, e.sys, x) {
        EndsLater(net, c, e', 2 * Start(c.numBlocks, c.B) - k - c.maxBatch + 2, DropBound(c) - 1);
      }
    }
  }

  // ---------------------------------------------------------------- exactly when the loop ends

  /** Within `n` steps preemption throws out everybody while there is no chunk, and the first time it does so the
      dropped request goes on for ever. */
  ghost predicate Doomed(net: Net, c: Config, e: Engine, n: nat)
    decreases n
  {
    if !Keeps(c, e.sys) then GoesOn(c, e.sys, e.sys.running[0])
    else !e.sys.IsFinished() && n > 0 && Step(net, c, e).Ok? && Doomed(net, c, Step(net, c, e).value, n - 1)
  }

  lemma DropUnfinished(c: Config, s: Sys)
    requires !Keeps(c, s)
    ensures s.running != [] && !s.IsFinished()
  {
    hide AfterPreemption;
  }

  /** In any configuration whatsoever: the first drop comes within the measure or not at all, and decides. */
  lemma {:induction false} DoomedExactly(net: Net, c: Config, e: Engine, led: Ledger, kv: Memory, n: nat, m: nat)
    requires Nearly(c, e.sys, led, kv) && Holds(net, e.mems, kv) && AllFaithful(net, c, e.sys) && Measure(c, e.sys) < n
    ensures if Doomed(net, c, e, n) then !EndsWithin(net, c, e, m) && SafeGenerate(net, c, e, m)
            else EndsWithin(net, c, e, n + DropBound(c))
    decreases n
  {
    hide Nearly, Holds, Step, SafeTick, AllFaithful, Measure, Keeps, GoesOn, DropBound, Schedule, ScheduleFrom;
    if !Keeps(c, e.sys) {
      DropUnfinished(c, e.sys);
      DropExactly(net, c, e, led, kv, e.sys.running[0], m);
      if EndsWithin(net, c, e, DropBound(c)) { EndsLater(net, c, e, DropBound(c), n + DropBound(c)); }
    } else if !e.sys.IsFinished() && Step(net, c, e).Ok? {
      var led', kv' := StepKeeps(net, c, e, led, kv);
      StepDecreases(net, c, e, led, kv);
      DoomedExactly(net, c, Step(net, c, e).value, led', kv', n - 1, if m > 0 then m - 1 else 0);
    }
  }

  /** The loop ends exactly if it is not doomed, and then within an explicit bound. */
  lemma EndsExactly(net: Net, c: Config, e: Engine, led: Ledger, kv: Memory)
    requires Nearly(c, e.sys, led, kv) && Holds(net, e.mems, kv) && AllFaithful(net, c, e.sys)
    ensures var n := Measure(c, e.sys) + 1;
            && ((exists m: nat :: EndsWithin(net, c, e, m)) <==> !Doomed(net, c, e, n))
            && (!Doomed(net, c, e, n) ==> EndsWithin(net, c, e, n + DropBound(c)))
  {
    hide Nearly, Holds, AllFaithful, Measure, Doomed, EndsWithin, SafeGenerate, DropBound;
    var n := Measure(c, e.sys) + 1;
    DoomedExactly(net, c, e, led, kv, n, 0);
    if m: nat :| EndsWithin(net, c, e, m) {
      DoomedExactly(net, c, e, led, kv, n, m);
    }
  }

  /** A loop that does not end within that bound never does. */
  lemma EndsIfEver(net: Net, c: Config, e: Engine, led: Ledger, kv: Memory, m: nat)
    requires Nearly(c, e.sys, led, kv) && Holds(net, e.mems, kv) && AllFaithful(net, c, e.sys)
    requires EndsWithin(net, c, e, m)
    ensures EndsWithin(net, c, e, Measure(c, e.sys) + 1 + DropBound(c))
  {
    hide Nearly, Holds, AllFaithful, Measure, Doomed, EndsWithin, SafeGenerate, DropBound;
    DoomedExactly(net, c, e, led, kv, Measure(c, e.sys) + 1, m);
  }

  // ---------------------------------------------------------------- when no request can do that

  /** Prompt and completion of the request, decoded alone. */
  function Whole(net: Net, c: Config, r: Req): seq<Token> {
    if 0 < r.numPrompt <= |r.tokens| then Decode(net, c, r, r.tokens[..r.numPrompt]) else []
  }

  /** The request needs more than the pool has for two tokens or more, and the budget leads it back to the last slot
      from behind its last page whose hash does not come again. */
  predicate Overfull(c: Config, p: nat, t: seq<Token>) {
    && c.chunked && Start(c.numBlocks, c.B) + 2 <= |t|
    && Refills(c, p, Start(FirstRepeat(c, t, c.numBlocks), c.B))
  }

  lemma {:induction false} DecodeExtends(net: Net, c: Config, r: Req, tokens: seq<Token>)
    requires tokens != []
    ensures tokens <= Decode(net, c, r, tokens) && |tokens| < |Decode(net, c, r, tokens)|
    decreases c.maxLen - |tokens|
  {
    var t := tokens + [NextToken(net, tokens)];
    if !Stops(c, r.(tokens := t)) {
      DecodeExtends(net, c, r, t);
    }
  }

  /** Only the first pages count. */
  lemma PrefixRepeat(c: Config, t: seq<Token>, u: seq<Token>, n: nat)
    requires t <= u && Start(n, c.B) <= |t|
    ensures FirstRepeat(c, t, n) == FirstRepeat(c, u, n)
  {
    forall j: nat | j < n
      ensures BlockName(c, t, j) == BlockName(c, u, j)
    {
      StartMono(j + 1, n, c.B);
      PrefixNames(c, t, u, j);
    }
    RepeatFrame(c, t, u, n, 0);
  }

  /** A request that goes on for ever is one of those. */
  lemma GoesOnIsOverfull(net: Net, c: Config, s: Sys, led: Ledger, kv: Memory, x: nat)
    requires Nearly(c, s, led, kv) && AllFaithful(net, c, s) && !Keeps(c, s) && x == s.running[0] && GoesOn(c, s, x)
    ensures x < |s.reqs| && s.reqs[x].status != Finished && Overfull(c, s.reqs[x].numPrompt, Whole(net, c, s.reqs[x]))
    ensures c.maxSeqs > 0
  {
    hide Quiescent, Keeps, Found, AfterPreemption, Decode;
    DropUnfinished(c, s);
    LiveSome(c, s, led, kv);
    DropFills(c, s, led, kv, x);
    assert Placed(s, x) && Faithful(net, c, s.reqs[x]);
    var r := s.reqs[x];
    DecodeExtends(net, c, r, r.tokens);
    PrefixRepeat(c, r.tokens, Decode(net, c, r, r.tokens), c.numBlocks);
  }

  ghost predicate NobodyOverfull(net: Net, c: Config, s: Sys) {
    forall x: nat {:trigger s.reqs[x]} ::
      x < |s.reqs| && s.reqs[x].status != Finished ==> !Overfull(c, s.reqs[x].numPrompt, Whole(net, c, s.reqs[x]))
  }

  lemma SameWhole(net: Net, c: Config, r: Req, r': Req)
    requires TokenStep(net, c, r, r') && Faithful(net, c, r)
    ensures Whole(net, c, r') == Whole(net, c, r) && r'.numPrompt == r.numPrompt
    ensures r.status == Finished ==> r'.status == Finished
  {
    hide Decode;
    assert r'.tokens[..r.numPrompt] == r.tokens[..r.numPrompt];
    DecodeSame(net, c, r, r', r.tokens[..r.numPrompt]);
  }

  lemma StaysFitting(net: Net, c: Config, e: Engine, led: Ledger, kv: Memory)
    requires Nearly(c, e.sys, led, kv) && Holds(net, e.mems, kv) && AllFaithful(net, c, e.sys)
    requires NobodyOverfull(net, c, e.sys) && Step(net, c, e).Ok?
    ensures NobodyOverfull(net, c, Step(net, c, e).value.sys)
  {
    hide Nearly, AtRest, Holds, Step, Schedule, Ended, Faithful, TokenStep, Whole, Overfull, Postprocess, Cut,
         DecodeFits;
    if !SafeTick(c, e.sys) { UnsafeTick(net, c, e, led, kv); }
    var led', kv', ts := StepOk(net, c, e, led, kv);
    var s' := Step(net, c, e).value.sys;
    forall x: nat | x < |s'.reqs| && s'.reqs[x].status != Finished
      ensures !Overfull(c, s'.reqs[x].numPrompt, Whole(net, c, s'.reqs[x]))
    {
      assert Faithful(net, c, e.sys.reqs[x]) && TokenStep(net, c, e.sys.reqs[x], s'.reqs[x]);
      SameWhole(net, c, e.sys.reqs[x], s'.reqs[x]);
    }
  }

  lemma {:induction false} NotDoomed(net: Net, c: Config, e: Engine, led: Ledger, kv: Memory, n: nat)
    requires Nearly(c, e.sys, led, kv) && Holds(net, e.mems, kv) && AllFaithful(net, c, e.sys)
    requires NobodyOverfull(net, c, e.sys) || c.maxSeqs == 0
    ensures !Doomed(net, c, e, n)
    decreases n
  {
    hide Nearly, Holds, Step, AllFaithful, Keeps, GoesOn, Overfull, Whole;
    if !Keeps(c, e.sys) {
      DropUnfinished(c, e.sys);
      if GoesOn(c, e.sys, e.sys.running[0]) {
        GoesOnIsOverfull(net, c, e.sys, led, kv, e.sys.running[0]);
      }
    } else if !e.sys.IsFinished() && n > 0 && Step(net, c, e).Ok? {
      var led', kv' := StepKeeps(net, c, e, led, kv);
      if c.maxSeqs > 0 { StaysFitting(net, c, e, led, kv); }
      NotDoomed(net, c, Step(net, c, e).value, led', kv', n - 1);
    }
  }

  /** In any configuration, cuts and preemption included: if no request is of that kind, the loop ends in time. */
  lemma FittingEnds(net: Net, c: Config, e: Engine, led: Ledger, kv: Memory)
    requires Nearly(c, e.sys, led, kv) && Holds(net, e.mems, kv) && AllFaithful(net, c, e.sys)
    requires NobodyOverfull(net, c, e.sys)
    ensures EndsWithin(net, c, e, Measure(c, e.sys) + 1 + DropBound(c))
  {
    hide Nearly, Holds, AllFaithful, NobodyOverfull, EndsWithin, Measure, DropBound, Doomed;
    NotDoomed(net, c, e, led, kv, Measure(c, e.sys) + 1);
    EndsExactly(net, c, e, led, kv);
  }

  /** No two of the first `n` blocks of these tokens have the same hash. */
  ghost predicate DistinctNames(c: Config, t: seq<Token>, n: nat) {
    forall i: nat, j: nat {:trigger BlockName(c, t, i), BlockName(c, t, j)} ::
      i < j < n && Start(j + 1, c.B) <= |t| ==> BlockName(c, t, i) != BlockName(c, t, j)
  }

  lemma DistinctFits(c: Config, p: nat, t: seq<Token>)
    requires DistinctNames(c, t, c.numBlocks)
    ensures !Overfull(c, p, t)
  {
    hide BlockName;
    var n := c.numBlocks;
    RepeatFromIs(c, t, n, 0);
    var k := FirstRepeat(c, t, n);
    if k < n && Start(n, c.B) <= |t| {
      var j: nat :| k < j < n && BlockName(c, t, j) == BlockName(c, t, k);
      StartMono(j + 1, n, c.B);
      assert false;
    }
  }

  /** So it ends if no request hashes two of its first pages alike. */
  lemma DistinctEnds(net: Net, c: Config, e: Engine, led: Ledger, kv: Memory)
    requires Nearly(c, e.sys, led, kv) && Holds(net, e.mems, kv) && AllFaithful(net, c, e.sys)
    requires forall x: nat :: x < |e.sys.reqs| && e.sys.reqs[x].status != Finished ==>
                                DistinctNames(c, Whole(net, c, e.sys.reqs[x]), c.numBlocks)
    ensures EndsWithin(net, c, e, Measure(c, e.sys) + 1 + DropBound(c))
  {
    hide Nearly, Holds, AllFaithful, EndsWithin, Measure, DropBound, Whole, DistinctNames, Overfull;
    forall x: nat | x < |e.sys.reqs| && e.sys.reqs[x].status != Finished
      ensures !Overfull(c, e.sys.reqs[x].numPrompt, Whole(net, c, e.sys.reqs[x]))
    {
      DistinctFits(c, e.sys.reqs[x].numPrompt, Whole(net, c, e.sys.reqs[x]));
    }
    FittingEnds(net, c, e, led, kv);
  }

  // ---------------------------------------------------------------- a check on sizes alone

  /** Some number of whole pages leaves a rest of the pool that a request with so long a prompt can fill to the last
      slot with whole budgets, and a request may outgrow the pool. */
  predicate MayRefill(c: Config, p: nat) {
    && c.chunked && Start(c.numBlocks, c.B) + 2 <= c.maxLen
    && exists m: nat :: m < c.numBlocks && Refills(c, p, Start(m, c.B))
  }

  lemma {:induction false} DecodeBounded(net: Net, c: Config, r: Req, tokens: seq<Token>)
    requires tokens != []
    ensures |Decode(net, c, r, tokens)| <= Max(c.maxLen, |tokens| + 1)
    decreases c.maxLen - |tokens|
  {
    var t := tokens + [NextToken(net, tokens)];
    if !Stops(c, r.(tokens := t)) {
      DecodeBounded(net, c, r, t);
    }
  }

  lemma SizesFit(net: Net, c: Config, r: Req)
    requires 1 <= r.numPrompt <= |r.tokens| && r.numPrompt + 1 <= c.maxLen && !MayRefill(c, r.numPrompt)
    ensures !Overfull(c, r.numPrompt, Whole(net, c, r))
  {
    hide Decode, Divides;
    var t := Whole(net, c, r);
    DecodeBounded(net, c, r, r.tokens[..r.numPrompt]);
    RepeatFromIs(c, t, c.numBlocks, 0);
    var m := FirstRepeat(c, t, c.numBlocks);
    assert Refills(c, r.numPrompt, Start(m, c.B)) && c.chunked && Start(c.numBlocks, c.B) + 2 <= c.maxLen ==>
        m == c.numBlocks;
  }

  /** Lengths of prompts, the token budget and the size of the pool can rule it out for every hash and network. */
  lemma SizesEnd(net: Net, c: Config, e: Engine, led: Ledger, kv: Memory)
    requires Nearly(c, e.sys, led, kv) && Holds(net, e.mems, kv) && AllFaithful(net, c, e.sys)
    requires forall x: nat :: x < |e.sys.reqs| && e.sys.reqs[x].status != Finished ==>
                                !MayRefill(c, e.sys.reqs[x].numPrompt)
    ensures EndsWithin(net, c, e, Measure(c, e.sys) + 1 + DropBound(c))
  {
    hide Nearly, Holds, AllFaithful, EndsWithin, Measure, DropBound, Whole, MayRefill, Overfull;
    RestLimits(c, e.sys, led, kv);
    forall x: nat | x < |e.sys.reqs| && e.sys.reqs[x].status != Finished
      ensures !Overfull(c, e.sys.reqs[x].numPrompt, Whole(net, c, e.sys.reqs[x]))
    {
      assert ReqLimits(c, e.sys.reqs[x]);
      SizesFit(net, c, e.sys.reqs[x]);
    }
    FittingEnds(net, c, e, led, kv);
  }
}
