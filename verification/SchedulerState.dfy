/** The scheduler's invariant between steps, and preemption. */
module SchedulerState {
  import opened Arith
  import opened Seqs
  import opened Requests
  import opened Pages
  import opened CacheInvariant
  import opened KvMemory
  import opened Growth
  import opened Boundary
  import opened Scheduling

  /** What never changes about a request, and the limits a live one stays under. */
  ghost predicate ReqLimits(c: Config, r: Req) {
    && 1 <= r.numPrompt <= |r.tokens|
    && (r.status != Finished ==> |r.tokens| + 1 <= c.maxLen && r.Completions() < r.maxTokens)
  }

  /** Waiting and finished requests hold no pages. */
  ghost predicate Idle(r: Req) {
    r.table == [] && r.cached == 0
  }

  ghost predicate AllBelowN(ids: seq<nat>, n: nat) {
    forall k :: 0 <= k < |ids| ==> ids[k] < n
  }

  /** Each request is in exactly the place its status says. */
  ghost predicate Placed(s: Sys, id: nat)
    requires id < |s.reqs|
  {
    && (id in s.waiting <==> s.reqs[id].status == Waiting)
    && (id in s.running || s.chunked == Some(id) <==> s.reqs[id].status == Running)
    && !(id in s.running && s.chunked == Some(id))
  }

  ghost predicate Queues(s: Sys) {
    && NoDup(s.waiting) && NoDup(s.running)
    && AllBelowN(s.waiting, |s.reqs|) && AllBelowN(s.running, |s.reqs|)
    && (s.chunked.Some? ==> s.chunked.value < |s.reqs|)
    && forall id: nat {:trigger Placed(s, id)} :: id < |s.reqs| ==> Placed(s, id)
  }

  /** A running request has exactly one token left to compute; a chunked one is still inside its prompt. */
  ghost predicate Progress(s: Sys, id: nat)
    requires id < |s.reqs|
  {
    var r := s.reqs[id];
    && r.newToks == 0
    && (r.status != Running ==> Idle(r))
    && (id in s.running ==> r.cached + 1 == |r.tokens|)
    && (s.chunked == Some(id) ==> r.cached < r.numPrompt)
  }

  /** The last running request has more than one token to compute: it was promoted by a prefill cut short. */
  predicate Cut(s: Sys) {
    s.running != [] && var r := s.Get(s.running[|s.running| - 1]); r.cached + 1 < |r.tokens|
  }

  /** At rest, but for a request that may have been cut. */
  ghost predicate Nearly(c: Config, s: Sys, led: Ledger, kv: Memory) {
    && Quiescent(c, s.pool, s.reqs, led, kv)
    && |s.pool.pages| == c.numBlocks
    && Queues(s)
    && (forall id: nat {:trigger Progress(s, id)} ::
         id < |s.reqs| && !(Cut(s) && id == s.running[|s.running| - 1]) ==> Progress(s, id))
    && (Cut(s) ==> s.Get(s.running[|s.running| - 1]).newToks == 0)
    && (forall id: nat {:trigger ReqLimits(c, s.reqs[id])} :: id < |s.reqs| ==> ReqLimits(c, s.reqs[id]))
    && s.Live() <= c.maxSeqs
    && (!c.chunked ==> s.chunked.None?)
  }

  /** The invariant between steps. */
  ghost predicate AtRest(c: Config, s: Sys, led: Ledger, kv: Memory) {
    Nearly(c, s, led, kv) && !Cut(s)
  }

  /** A state from which `schedule` meets none of its assertions: at rest, or with a cut request that preemption will
      take. */
  ghost predicate Steppable(c: Config, s: Sys, led: Ledger, kv: Memory) {
    Nearly(c, s, led, kv) && (Cut(s) ==> !DecodeFits(c, s))
  }

  lemma RestIsSteppable(c: Config, s: Sys, led: Ledger, kv: Memory)
    requires AtRest(c, s, led, kv)
    ensures Nearly(c, s, led, kv) && Steppable(c, s, led, kv) && !Cut(s)
  {
  }

  /** Same request, whatever happened to its pages. */
  ghost predicate SameRequest(r: Req, r': Req) {
    r'.tokens == r.tokens && r'.numPrompt == r.numPrompt && r'.maxTokens == r.maxTokens && r'.ignoreEos == r.ignoreEos
  }

  ghost predicate SameRequests(reqs: seq<Req>, reqs': seq<Req>) {
    |reqs'| == |reqs| && forall id: nat {:trigger reqs'[id]} {:trigger reqs[id]} ::
      id < |reqs| ==> SameRequest(reqs[id], reqs'[id])
  }

  /** The two pools partition the pages, counts are exact, and the hash map only names pages that carry the hash. */
  ghost predicate PoolPartition(pool: Pool, reqs: seq<Req>) {
    && NoDup(pool.free) && (forall b :: b in pool.free || b in pool.used ==> b < |pool.pages|)
    && (forall b: nat {:trigger pool.pages[b]} :: b < |pool.pages| ==>
          && (b in pool.free <==> b !in pool.used)
          && pool.pages[b].refs == |Users(reqs, b)|
          && (pool.pages[b].refs == 0 <==> b in pool.free))
    && (forall h :: h in pool.owner ==> pool.owner[h] < |pool.pages| && pool.pages[pool.owner[h]].hash == h)
  }

  lemma PoolInvariant(c: Config, s: Sys, led: Ledger, kv: Memory)
    requires Nearly(c, s, led, kv)
    ensures PoolPartition(s.pool, s.reqs)
  {
    forall h | h in s.pool.owner
      ensures s.pool.owner[h] < |s.pool.pages| && s.pool.pages[s.pool.owner[h]].hash == h
    {
      assert OwnerOk(s.pool, h);
    }
    forall b: nat | b < |s.pool.pages|
      ensures (b in s.pool.free <==> b !in s.pool.used) && s.pool.pages[b].refs == |Users(s.reqs, b)|
      ensures s.pool.pages[b].refs == 0 <==> b in s.pool.free
    {
      assert RefOk(s.pool, s.reqs, b);
    }
  }

  /** A page that is not published has exactly one owner. */
  lemma PartialPageOwner(c: Config, s: Sys, led: Ledger, kv: Memory, id: nat, i: nat)
    requires AtRest(c, s, led, kv) && id < |s.reqs| && i < |s.reqs[id].table|
    ensures s.reqs[id].table[i] < |s.pool.pages| && NoDup(s.reqs[id].table)
    ensures !s.pool.pages[s.reqs[id].table[i]].Published() ==>
              Users(s.reqs, s.reqs[id].table[i]) == {id} && s.pool.pages[s.reqs[id].table[i]].refs == 1
  {
    hide KvComplete, Queues;
    var b := s.reqs[id].table[i];
    assert TableOk(c, s.pool.pages, led, s.reqs[id]);
    assert EntryOk(c, s.pool.pages, led, s.reqs[id], i);
    if !s.pool.pages[b].Published() {
      forall x: nat | x < |s.reqs| && x != id
        ensures b !in s.reqs[x].table
      {
        assert Share(c, s.reqs[id], s.reqs[x]);
        assert TableOk(c, s.pool.pages, led, s.reqs[x]);
        forall j: nat | j < |s.reqs[x].table|
          ensures s.reqs[x].table[j] != b
        {
          assert EntryOk(c, s.pool.pages, led, s.reqs[x], j);
        }
      }
      assert Users(s.reqs, b) == {id};
      assert RefOk(s.pool, s.reqs, b);
    }
  }

  /** A request that is not finished is in exactly one place; a running one has one token to compute, and a table that
      covers exactly its cached tokens, with every full page published. */
  lemma RequestPartition(c: Config, s: Sys, led: Ledger, kv: Memory, id: nat)
    requires AtRest(c, s, led, kv) && id < |s.reqs|
    ensures var places := (if id in s.waiting then 1 else 0) + (if s.chunked == Some(id) then 1 else 0)
            + (if id in s.running then 1 else 0);
            places == if s.reqs[id].status == Finished then 0 else 1
    ensures s.Live() <= c.maxSeqs
    ensures AllBelow(s.reqs[id].table, |s.pool.pages|)
    ensures id in s.running ==>
              var r := s.reqs[id];
              && |r.tokens| == r.cached + 1
              && |r.table| == Ceil(r.cached, c.B)
              && forall i: nat :: i < |r.table| ==> (s.pool.pages[r.table[i]].Published()
                                                     <==> Start(i + 1, c.B) <= r.cached)
  {
    assert Placed(s, id) && Progress(s, id);
    assert Aligned(c, s.pool.pages, s.reqs[id]);
  }

  // ---------------------------------------------------------------- preemption

  /** Statuses are of no concern to the pages. */
  lemma StatusIrrelevant(c: Config, pool: Pool, reqs: seq<Req>, led: Ledger, kv: Memory, id: nat, st: Status)
    requires Quiescent(c, pool, reqs, led, kv) && id < |reqs|
    ensures Quiescent(c, pool, reqs[id := reqs[id].(status := st)], led, kv)
  {
    var r' := reqs[id].(status := st);
    var reqs' := reqs[id := r'];
    assert TableOk(c, pool.pages, led, reqs[id]);
    assert TableReady(c, pool.pages, kv, reqs[id], reqs[id].Context());
    forall i: nat | i < |r'.table|
      ensures EntryOk(c, pool.pages, led, r', i) && EntryReady(c, pool.pages, kv, r', r'.Context(), i)
    {
      assert EntryOk(c, pool.pages, led, reqs[id], i);
      assert EntryReady(c, pool.pages, kv, reqs[id], reqs[id].Context(), i);
    }
    ProgressWorld(c, pool, reqs, led, id, r');
    forall x: nat | x < |reqs'|
      ensures TableReady(c, pool.pages, kv, reqs'[x], reqs'[x].Context()) && Aligned(c, pool.pages, reqs'[x])
    {
      assert TableReady(c, pool.pages, kv, reqs[x], reqs[x].Context());
      assert Aligned(c, pool.pages, reqs[x]);
    }
  }

  /** What the step of one preemption does to the queues. */
  ghost predicate GivenUp(s: Sys, s': Sys, id: nat) {
    && s.running != [] && id == s.running[|s.running| - 1] && id < |s.reqs|
    && s'.running == s.running[..|s.running| - 1] && s'.waiting == [id] + s.waiting && s'.chunked == s.chunked
    && s'.reqs == s.reqs[id := Cleared(s.reqs[id]).(status := Waiting)]
  }

  lemma GivenUpPlace(s: Sys, s': Sys, id: nat, x: nat)
    requires Queues(s) && GivenUp(s, s', id) && x < |s.reqs| && (x != id ==> Progress(s, x))
    ensures Placed(s', x) && Progress(s', x)
  {
    assert s.running == s'.running + [id];
    assert Placed(s, x) && Placed(s, id);
    assert x in s.running <==> x in s'.running || x == id;
  }

  lemma GivenUpQueues(s: Sys, s': Sys, id: nat)
    requires Queues(s) && GivenUp(s, s', id)
    ensures NoDup(s'.waiting) && NoDup(s'.running) && AllBelowN(s'.waiting, |s'.reqs|)
            && AllBelowN(s'.running, |s'.reqs|)
    ensures s.reqs[id].status == Running
  {
    assert Placed(s, id) && id in s.running;
  }

  /** The last running request, without its pages, is now the first to wait. */
  lemma BackInQueue(c: Config, s: Sys, s': Sys, led: Ledger, kv: Memory, id: nat)
    requires Nearly(c, s, led, kv) && GivenUp(s, s', id) && |s'.pool.pages| == |s.pool.pages|
    requires Quiescent(c, s'.pool, s'.reqs, led, kv)
    ensures AtRest(c, s', led, kv)
  {
    hide Quiescent, Placed, NoDup;
    GivenUpQueues(s, s', id);
    forall x: nat | x < |s'.reqs|
      ensures Placed(s', x) && Progress(s', x) && ReqLimits(c, s'.reqs[x])
    {
      assert ReqLimits(c, s.reqs[x]);
      GivenUpPlace(s, s', id, x);
    }
    if s'.running != [] {
      assert Progress(s', s'.running[|s'.running| - 1]);
    }
  }

  /** Preempting the last running request restores the invariant, a cut request included, and keeps the queue order. */
  lemma PreemptOk(c: Config, s: Sys, led: Ledger, kv: Memory)
    requires Nearly(c, s, led, kv) && s.running != []
    ensures var n := |s.running| - 1;
            var res := Preempt(c, s.(running := s.running[..n]), s.running[n]);
            && res.Ok?
            && AtRest(c, res.value, led, kv)
            && res.value.running == s.running[..n]
            && res.value.waiting == [s.running[n]] + s.waiting
            && res.value.chunked == s.chunked
            && s.pool.free <= res.value.pool.free
            && SameRequests(s.reqs, res.value.reqs)
            && (forall id: nat :: id < |s.reqs| && id != s.running[n] ==> res.value.reqs[id] == s.reqs[id])
  {
    var n := |s.running| - 1;
    hide World, KvComplete, ReleasePages, CanRelease, AtRest;
    var id := s.running[n];
    DeallocateOk(c, s.pool, s.reqs, led, kv, id);
    var v := Deallocate(s.pool, s.reqs[id]).value;
    StatusIrrelevant(c, v.0, s.reqs[id := v.1], led, kv, id, Waiting);
    var s' := Preempt(c, s.(running := s.running[..n]), id).value;
    assert s'.reqs == s.reqs[id := v.1][id := v.1.(status := Waiting)];
    BackInQueue(c, s, s', led, kv, id);
  }

  /** Preempt from the tail until `k` running requests are left. */
  function PreemptTo(c: Config, s: Sys, k: nat): Result<Sys>
    requires k <= |s.running|
    decreases |s.running|
  {
    if |s.running| == k then Ok(s)
    else
      var n := |s.running| - 1;
      var s1 :- Preempt(c, s.(running := s.running[..n]), s.running[n]);
      PreemptTo(c, s1, k)
  }

  /** Preemption keeps the queue order `running ++ waiting`, the chunk, and everybody else's pages. */
  ghost predicate PreemptedTo(c: Config, s: Sys, s': Sys, k: nat) {
    && k <= |s.running|
    && s'.running == s.running[..k]
    && s'.running + s'.waiting == s.running + s.waiting
    && s'.chunked == s.chunked
    && s.pool.free <= s'.pool.free
    && SameRequests(s.reqs, s'.reqs)
    && forall id: nat :: id < |s.reqs| && id !in s.running[k..] ==> s'.reqs[id] == s.reqs[id]
  }

  lemma SameRequestsTrans(a: seq<Req>, b: seq<Req>, d: seq<Req>)
    requires SameRequests(a, b) && SameRequests(b, d)
    ensures SameRequests(a, d)
  {
    forall id: nat | id < |a|
      ensures SameRequest(a[id], d[id])
    {
      assert SameRequest(a[id], b[id]) && SameRequest(b[id], d[id]);
    }
  }

  lemma PreemptedStep(c: Config, s: Sys, s1: Sys, s2: Sys, k: nat)
    requires s.running != [] && k < |s.running|
    requires s1.running == s.running[..|s.running| - 1] && s1.waiting == [s.running[|s.running| - 1]] + s.waiting
    requires s1.chunked == s.chunked && s.pool.free <= s1.pool.free && SameRequests(s.reqs, s1.reqs)
    requires forall id: nat :: id < |s.reqs| && id != s.running[|s.running| - 1] ==> s1.reqs[id] == s.reqs[id]
    requires PreemptedTo(c, s1, s2, k)
    ensures PreemptedTo(c, s, s2, k)
  {
    var n := |s.running| - 1;
    assert s1.running[..k] == s.running[..k];
    assert s.running == s.running[..n] + [s.running[n]];
    assert s.running + s.waiting == s1.running + s1.waiting;
    assert s.running[k..] == s1.running[k..] + [s.running[n]];
    SameRequestsTrans(s.reqs, s1.reqs, s2.reqs);
  }

  lemma {:induction false} PreemptToOk(c: Config, s: Sys, led: Ledger, kv: Memory, k: nat)
    requires Nearly(c, s, led, kv) && k <= |s.running| && (k == |s.running| ==> !Cut(s))
    ensures PreemptTo(c, s, k).Ok?
    ensures AtRest(c, PreemptTo(c, s, k).value, led, kv) && PreemptedTo(c, s, PreemptTo(c, s, k).value, k)
    decreases |s.running|
  {
    hide Quiescent, Preempt, Nearly;
    if |s.running| == k {
      assert s.running[..k] == s.running;
    } else {
      var n := |s.running| - 1;
      PreemptOk(c, s, led, kv);
      var s1 := Preempt(c, s.(running := s.running[..n]), s.running[n]).value;
      RestIsSteppable(c, s1, led, kv);
      PreemptToOk(c, s1, led, kv, k);
      PreemptedStep(c, s, s1, PreemptTo(c, s1, k).value, k);
    }
  }

  /** The choice alone: the tail is given up exactly until the rest fits. */
  lemma {:induction false} PreemptTailChoice(c: Config, s: Sys, led: Ledger, kv: Memory) returns (k: nat)
    requires Steppable(c, s, led, kv)
    ensures k <= |s.running| && PreemptTail(c, s) == PreemptTo(c, s, k) && PreemptTail(c, s).Ok?
    ensures k == |s.running| ==> !Cut(s)
    ensures DecodeFits(c, PreemptTail(c, s).value)
    ensures forall j: nat :: k < j <= |s.running| && PreemptTo(c, s, j).Ok? ==> !DecodeFits(c, PreemptTo(c, s, j).value)
    decreases |s.running|
  {
    hide Nearly, AtRest, Preempt, Quiescent;
    if s.running == [] || DecodeFits(c, s) {
      k := |s.running|;
    } else {
      var n := |s.running| - 1;
      PreemptOk(c, s, led, kv);
      var s1 := Preempt(c, s.(running := s.running[..n]), s.running[n]).value;
      RestIsSteppable(c, s1, led, kv);
      k := PreemptTailChoice(c, s1, led, kv);
      forall j: nat | k < j <= |s.running| && PreemptTo(c, s, j).Ok?
        ensures !DecodeFits(c, PreemptTo(c, s, j).value)
      {
        if j <= n {
          assert PreemptTo(c, s, j) == PreemptTo(c, s1, j);
        }
      }
    }
  }

  /** `_preempt_decode_tail` keeps the longest running prefix that fits once the freed pages are counted; a cut request
      that does not fit is taken, and the state is at rest again. */
  lemma PreemptTailLongest(c: Config, s: Sys, led: Ledger, kv: Memory) returns (k: nat)
    requires Steppable(c, s, led, kv)
    ensures PreemptTail(c, s).Ok?
    ensures k <= |s.running| && PreemptTail(c, s) == PreemptTo(c, s, k)
    ensures var s' := PreemptTail(c, s).value;
            AtRest(c, s', led, kv) && PreemptedTo(c, s, s', k) && DecodeFits(c, s')
    ensures forall j: nat :: k < j <= |s.running| && PreemptTo(c, s, j).Ok? ==> !DecodeFits(c, PreemptTo(c, s, j).value)
  {
    k := PreemptTailChoice(c, s, led, kv);
    PreemptToOk(c, s, led, kv, k);
  }
}
