/** After the forward pass: tokens are appended, requests finish, progress is committed. */
module Delivery {
  import opened Arith
  import opened Seqs
  import opened Requests
  import opened Pages
  import opened CacheInvariant
  import opened KvMemory
  import opened Growth
  import opened Boundary
  import opened Scheduling
  import opened SchedulerState

  function WithToken(r: Req, t: Token): Req {
    r.(tokens := r.tokens + [t])
  }

  /** A request after it was given token `t`. */
  function DeliveredReq(c: Config, r: Req, t: Token): Req {
    if Stops(c, WithToken(r, t)) then Cleared(WithToken(r, t)).(status := Finished) else WithToken(r, t)
  }

  /** Only the tokens of the context matter to the pages, so changes beyond it are harmless. */
  lemma ContextOnlyQuiescent(c: Config, pool: Pool, reqs: seq<Req>, led: Ledger, kv: Memory, id: nat, r: Req)
    requires Quiescent(c, pool, reqs, led, kv) && id < |reqs|
    requires r.table == reqs[id].table && r.cached >= reqs[id].cached && r.Context() == reqs[id].Context()
    requires reqs[id].tokens <= r.tokens
    ensures Quiescent(c, pool, reqs[id := r], led, kv)
  {
    var reqs' := reqs[id := r];
    assert TableOk(c, pool.pages, led, reqs[id]);
    assert Aligned(c, pool.pages, reqs[id]);
    assert TableReady(c, pool.pages, kv, reqs[id], reqs[id].Context());
    forall i: nat | i < |r.table|
      ensures EntryOk(c, pool.pages, led, r, i)
    {
      assert EntryOk(c, pool.pages, led, reqs[id], i);
      AlignedEntry(c, pool.pages, reqs[id], i);
      PrefixSame(reqs[id].tokens, r.tokens, Start(i + 1, c.B));
    }
    forall i: nat | i < |r.table|
      ensures EntryReady(c, pool.pages, kv, r, r.Context(), i)
    {
      assert EntryReady(c, pool.pages, kv, reqs[id], reqs[id].Context(), i);
      LongerEntry(c, pool.pages, kv, reqs[id], r, i);
    }
    ProgressWorld(c, pool, reqs, led, id, r);
    forall x: nat | x < |reqs'|
      ensures TableReady(c, pool.pages, kv, reqs'[x], reqs'[x].Context()) && Aligned(c, pool.pages, reqs'[x])
    {
      assert TableReady(c, pool.pages, kv, reqs[x], reqs[x].Context());
      assert Aligned(c, pool.pages, reqs[x]);
    }
  }

  lemma PrefixSame(s: seq<Token>, t: seq<Token>, n: nat)
    requires s <= t
    ensures n <= |s| ==> t[..n] == s[..n]
  {
  }

  lemma LongerEntry(c: Config, pages: seq<Page>, kv: Memory, r: Req, r': Req, i: nat)
    requires i < |r.table| && AllBelow(r.table, |pages|) && r.Context() <= |r.tokens|
    requires r'.table == r.table && r'.Context() == r.Context() && r.tokens <= r'.tokens
    requires EntryReady(c, pages, kv, r, r.Context(), i)
    ensures EntryReady(c, pages, kv, r', r'.Context(), i)
  {
    forall o: nat | !pages[r.table[i]].Published() && o < c.B && Start(i, c.B) + o < r.Context()
        && Slot(c, r.table[i], o) < |kv|
      ensures kv[Slot(c, r.table[i], o)] == r'.tokens[..Start(i, c.B) + o + 1]
    {
      PrefixSame(r.tokens, r'.tokens, Start(i, c.B) + o + 1);
    }
  }

  /** `_finish` gives the pages back, with their content intact. */
  lemma FinishOk(c: Config, s: Sys, led: Ledger, kv: Memory, id: nat)
    requires Quiescent(c, s.pool, s.reqs, led, kv) && id < |s.reqs|
    ensures Finish(s, id).Ok?
    ensures var s' := Finish(s, id).value;
            && Quiescent(c, s'.pool, s'.reqs, led, kv) && |s'.pool.pages| == |s.pool.pages|
            && s'.reqs == s.reqs[id := Cleared(s.reqs[id]).(status := Finished)]
            && s'.waiting == s.waiting
            && s'.running == Remove(s.running, id)
            && s'.chunked == (if s.chunked == Some(id) then None else s.chunked)
  {
    hide Quiescent, Deallocate;
    DeallocateOk(c, s.pool, s.reqs, led, kv, id);
    var v := Deallocate(s.pool, s.reqs[id]).value;
    var reqs1 := s.reqs[id := v.1];
    StatusIrrelevant(c, v.0, reqs1, led, kv, id, Finished);
    assert reqs1[id := reqs1[id].(status := Finished)] == s.reqs[id := Cleared(s.reqs[id]).(status := Finished)];
  }

  lemma StopsWhen(c: Config, r: Req, t: Token)
    ensures Stops(c, WithToken(r, t)) <==>
              || (!r.ignoreEos && t == c.eos) || |r.tokens| + 1 - r.numPrompt >= r.maxTokens
                 || |r.tokens| + 1 >= c.maxLen
  {
  }

  /** One delivery: the request gets its token, and finishes if that ends it. */
  lemma DeliverOk(c: Config, s: Sys, led: Ledger, kv: Memory, id: nat, t: Token)
    requires Quiescent(c, s.pool, s.reqs, led, kv) && id < |s.reqs|
    ensures Deliver(c, s, id, t).Ok?
    ensures var s' := Deliver(c, s, id, t).value;
            var stop := Stops(c, WithToken(s.reqs[id], t));
            && Quiescent(c, s'.pool, s'.reqs, led, kv) && |s'.pool.pages| == |s.pool.pages|
            && s'.reqs == s.reqs[id := DeliveredReq(c, s.reqs[id], t)]
            && (s'.reqs[id].status == Finished <==>
                  || s.reqs[id].status == Finished
                  || (!s.reqs[id].ignoreEos && t == c.eos)
                  || |s.reqs[id].tokens| + 1 - s.reqs[id].numPrompt >= s.reqs[id].maxTokens
                  || |s.reqs[id].tokens| + 1 >= c.maxLen)
            && s'.waiting == s.waiting
            && s'.running == (if stop then Remove(s.running, id) else s.running)
            && s'.chunked == (if stop && s.chunked == Some(id) then None else s.chunked)
  {
    hide Quiescent, Finish, Stops;
    StopsWhen(c, s.reqs[id], t);
    var r := WithToken(s.reqs[id], t);
    var s1 := s.Put(id, s.pool, r);
    ContextOnlyQuiescent(c, s.pool, s.reqs, led, kv, id, r);
    if Stops(c, r) {
      FinishOk(c, s1, led, kv, id);
      assert s1.reqs[id := Cleared(r).(status := Finished)] == s.reqs[id := DeliveredReq(c, s.reqs[id], t)];
    }
  }

  // ---------------------------------------------------------------- all deliveries

  /** Position of a request in the list, which is also the position of its token. */
  function IndexOf(ids: seq<nat>, id: nat): (k: nat)
    ensures k <= |ids| && (id in ids <==> k < |ids|)
    ensures k < |ids| ==> ids[k] == id
  {
    if ids == [] then 0 else if ids[0] == id then 0 else 1 + IndexOf(ids[1..], id)
  }

  /** The request with the token it is due, if any. */
  function AfterDelivery(c: Config, r: Req, ids: seq<nat>, ts: seq<Token>, id: nat): Req
    requires |ids| == |ts|
  {
    if id in ids then DeliveredReq(c, r, ts[IndexOf(ids, id)]) else r
  }

  /** The running queue without those that a delivery has finished, in the same order. */
  function Survivors(s: Sys, running: seq<nat>, ids: seq<nat>): seq<nat> {
    if running == [] then []
    else
      var x := running[0];
      (if x in ids && s.Get(x).status == Finished then [] else [x]) + Survivors(s, running[1..], ids)
  }

  lemma {:induction false} SurvivorsStep(s: Sys, running: seq<nat>, ids: seq<nat>)
    requires ids != [] && NoDup(running) && ids[0] !in ids[1..]
    ensures s.Get(ids[0]).status == Finished ==>
              Survivors(s, Remove(running, ids[0]), ids[1..]) == Survivors(s, running, ids)
    ensures s.Get(ids[0]).status != Finished ==> Survivors(s, running, ids[1..]) == Survivors(s, running, ids)
  {
    if running != [] {
      SurvivorsStep(s, running[1..], ids);
      assert ids == [ids[0]] + ids[1..];
      if running[0] == ids[0] {
        SurvivorsOther(s, running[1..], ids);
      } else {
        assert ([running[0]] + Remove(running[1..], ids[0]))[1..] == Remove(running[1..], ids[0]);
      }
    }
  }

  lemma {:induction false} SurvivorsOther(s: Sys, running: seq<nat>, ids: seq<nat>)
    requires ids != [] && ids[0] !in running
    ensures Survivors(s, running, ids[1..]) == Survivors(s, running, ids)
  {
    if running != [] {
      SurvivorsOther(s, running[1..], ids);
      assert ids == [ids[0]] + ids[1..];
    }
  }

  lemma {:induction false} SurvivorsNone(s: Sys, running: seq<nat>)
    ensures Survivors(s, running, []) == running
  {
    if running != [] {
      SurvivorsNone(s, running[1..]);
    }
  }

  ghost predicate AllDelivered(c: Config, s: Sys, s': Sys, ids: seq<nat>, ts: seq<Token>)
    requires |ids| == |ts|
  {
    && |s'.reqs| == |s.reqs| && |s'.pool.pages| == |s.pool.pages|
    && (forall id: nat {:trigger s'.reqs[id]} ::
         id < |s.reqs| ==> s'.reqs[id] == AfterDelivery(c, s.reqs[id], ids, ts, id))
    && s'.waiting == s.waiting
    && NoDup(s'.running)
    && s'.running == Survivors(s', s.running, ids)
    && (forall x :: x in s'.running <==> x in s.running && (x in ids ==> x < |s.reqs| && s'.reqs[x].status != Finished))
    && (s'.chunked == if s.chunked.Some? && s.chunked.value in ids && s.chunked.value < |s.reqs|
        && s'.reqs[s.chunked.value].status == Finished
                      then None else s.chunked)
  }

  lemma {:induction false} DeliverAllOk(c: Config, s: Sys, led: Ledger, kv: Memory, ids: seq<nat>, ts: seq<Token>)
    requires Quiescent(c, s.pool, s.reqs, led, kv) && NoDup(s.running) && NoDup(ids) && |ids| == |ts|
    requires forall k :: 0 <= k < |ids| ==> ids[k] < |s.reqs| && s.reqs[ids[k]].status != Finished
    ensures DeliverAll(c, s, ids, ts).Ok?
    ensures Quiescent(c, DeliverAll(c, s, ids, ts).value.pool, DeliverAll(c, s, ids, ts).value.reqs, led, kv)
    ensures AllDelivered(c, s, DeliverAll(c, s, ids, ts).value, ids, ts)
    decreases |ids|
  {
    hide Quiescent, AllDelivered, Deliver;
    if ids == [] {
      NoneDelivered(c, s, ids, ts);
    } else {
      DeliverOk(c, s, led, kv, ids[0], ts[0]);
      var s1 := Deliver(c, s, ids[0], ts[0]).value;
      RemoveSound(s.running, ids[0]);
      assert ids[0] !in ids[1..];
      forall k | 0 <= k < |ids[1..]|
        ensures ids[1..][k] < |s1.reqs| && s1.reqs[ids[1..][k]].status != Finished
      {
        assert ids[1..][k] == ids[k + 1] != ids[0];
      }
      DeliverAllOk(c, s1, led, kv, ids[1..], ts[1..]);
      DeliveredStep(c, s, s1, DeliverAll(c, s1, ids[1..], ts[1..]).value, ids, ts);
    }
  }

  lemma NoneDelivered(c: Config, s: Sys, ids: seq<nat>, ts: seq<Token>)
    requires ids == [] == ts && NoDup(s.running)
    ensures AllDelivered(c, s, s, ids, ts)
  {
    SurvivorsNone(s, s.running);
  }

  lemma DeliveredStep(c: Config, s: Sys, s1: Sys, s': Sys, ids: seq<nat>, ts: seq<Token>)
    requires ids != [] && |ids| == |ts| && ids[0] < |s.reqs| && ids[0] !in ids[1..]
    requires s.reqs[ids[0]].status != Finished
    requires var stop := Stops(c, WithToken(s.reqs[ids[0]], ts[0]));
             && |s1.pool.pages| == |s.pool.pages|
             && s1.reqs == s.reqs[ids[0] := DeliveredReq(c, s.reqs[ids[0]], ts[0])]
             && s1.waiting == s.waiting
             && s1.running == (if stop then Remove(s.running, ids[0]) else s.running)
             && s1.chunked == (if stop && s.chunked == Some(ids[0]) then None else s.chunked)
    requires NoDup(s.running)
    requires AllDelivered(c, s1, s', ids[1..], ts[1..])
    ensures AllDelivered(c, s, s', ids, ts)
  {
    hide Stops, Survivors;
    RemoveSound(s.running, ids[0]);
    SurvivorsStep(s', s.running, ids);
    assert ids == [ids[0]] + ids[1..];
    forall id: nat | id < |s.reqs|
      ensures s'.reqs[id] == AfterDelivery(c, s.reqs[id], ids, ts, id)
    {
      assert s'.reqs[id] == AfterDelivery(c, s1.reqs[id], ids[1..], ts[1..], id);
    }
    assert s'.reqs[ids[0]] == s1.reqs[ids[0]];
  }

  // ---------------------------------------------------------------- committing progress

  lemma CommitReqOk(c: Config, pool: Pool, reqs: seq<Req>, led: Ledger, kv: Memory, id: nat)
    requires Quiescent(c, pool, reqs, led, kv) && id < |reqs|
    ensures Quiescent(c, pool, reqs[id := Commit(reqs[id])], led, kv)
  {
    ContextOnlyQuiescent(c, pool, reqs, led, kv, id, Commit(reqs[id]));
  }

  lemma {:induction false} CommitAllOk(c: Config, s: Sys, led: Ledger, kv: Memory, ids: seq<nat>)
    requires Quiescent(c, s.pool, s.reqs, led, kv) && NoDup(ids)
    requires forall k :: 0 <= k < |ids| ==> ids[k] < |s.reqs|
    ensures var s' := CommitAll(s, ids);
            && Quiescent(c, s'.pool, s'.reqs, led, kv) && s'.pool == s.pool
            && s'.waiting == s.waiting && s'.running == s.running && s'.chunked == s.chunked
            && |s'.reqs| == |s.reqs|
            && (forall id: nat {:trigger s'.reqs[id]} ::
                 id < |s.reqs| ==> s'.reqs[id] == if id in ids then Commit(s.reqs[id]) else s.reqs[id])
    decreases |ids|
  {
    hide Quiescent;
    if ids != [] {
      CommitReqOk(c, s.pool, s.reqs, led, kv, ids[0]);
      var s1 := s.Put(ids[0], s.pool, Commit(s.Get(ids[0])));
      assert ids == [ids[0]] + ids[1..];
      CommitAllOk(c, s1, led, kv, ids[1..]);
      assert ids[0] !in ids[1..];
    }
  }

  lemma {:induction false} NeedLogitsMembers(s: Sys, ids: seq<nat>)
    requires NoDup(ids)
    ensures NoDup(NeedLogits(s, ids))
    ensures forall id :: id in NeedLogits(s, ids) <==>
              id in ids && |s.Get(id).tokens| == s.Get(id).Context() && s.Get(id).table != []
  {
    if ids != [] {
      NeedLogitsMembers(s, ids[1..]);
      assert ids == [ids[0]] + ids[1..];
      assert ids[0] !in ids[1..];
    }
  }

  // ---------------------------------------------------------------- sorting prefills into partial and running

  ghost predicate IsPartial(s: Sys, id: nat) {
    s.Get(id).status != Finished && s.Get(id).cached < s.Get(id).numPrompt
  }

  ghost predicate IsPromoted(s: Sys, id: nat) {
    s.Get(id).status != Finished && s.Get(id).cached >= s.Get(id).numPrompt
  }

  lemma {:induction false} PartialMembers(s: Sys, ids: seq<nat>)
    ensures forall x :: x in Partial(s, ids) <==> x in ids && IsPartial(s, x)
    ensures |Partial(s, ids)| <= |ids|
  {
    if ids != [] {
      PartialMembers(s, ids[1..]);
      assert ids == [ids[0]] + ids[1..];
    }
  }

  /** When all but the last are past their prompt, at most the last is partial. */
  lemma {:induction false} PartialLast(s: Sys, ids: seq<nat>)
    requires forall k :: 0 <= k < |ids| - 1 ==> !IsPartial(s, ids[k])
    ensures Partial(s, ids) == if ids != [] && IsPartial(s, ids[|ids| - 1]) then [ids[|ids| - 1]] else []
  {
    if ids != [] {
      PartialLast(s, ids[1..]);
    }
  }

  /** The requests of `ids` that are not finished, in their order. */
  function Alive(s: Sys, ids: seq<nat>): seq<nat> {
    if ids == [] then [] else (if s.Get(ids[0]).status == Finished then [] else [ids[0]]) + Alive(s, ids[1..])
  }

  /** The prefills that join the running queue, in their order. */
  function Promoted(s: Sys, ids: seq<nat>): seq<nat> {
    if ids == [] then []
    else
      var r := s.Get(ids[0]);
      (if r.status != Finished && r.cached >= r.numPrompt then [ids[0]] else []) + Promoted(s, ids[1..])
  }

  lemma {:induction false} SurvivorsAlive(s: Sys, s': Sys, running: seq<nat>, ids: seq<nat>)
    requires forall x :: x in running ==> x in ids && s'.Get(x).status == s.Get(x).status
    ensures Survivors(s, running, ids) == Alive(s', running)
  {
    if running != [] {
      SurvivorsAlive(s, s', running[1..], ids);
    }
  }

  lemma {:induction false} SameReqsAlive(s: Sys, s': Sys, ids: seq<nat>)
    requires s'.reqs == s.reqs
    ensures Alive(s', ids) == Alive(s, ids) && Promoted(s', ids) == Promoted(s, ids)
  {
    if ids != [] {
      SameReqsAlive(s, s', ids[1..]);
    }
  }

  /** The promoted prefills are put behind the running requests. */
  lemma {:induction false} PromoteAppends(s: Sys, running: seq<nat>, ids: seq<nat>)
    requires NoDup(ids) && forall x :: x in ids ==> x !in running
    ensures Promote(s, running, ids) == running + Promoted(s, ids)
    decreases |ids|
  {
    if ids != [] {
      var running' := if IsPromoted(s, ids[0]) then running + [ids[0]] else running;
      assert ids[0] in ids && ids[0] !in ids[1..];
      assert Promote(s, running, ids) == Promote(s, running', ids[1..]);
      PromoteAppends(s, running', ids[1..]);
    }
  }

  lemma {:induction false} PromoteMembers(s: Sys, running: seq<nat>, ids: seq<nat>)
    requires NoDup(running)
    ensures NoDup(Promote(s, running, ids))
    ensures forall x :: x in Promote(s, running, ids) <==> x in running || (x in ids && IsPromoted(s, x))
    ensures |Promote(s, running, ids)| + |Partial(s, ids)| <= |running| + |ids|
    ensures running <= Promote(s, running, ids)
    decreases |ids|
  {
    if ids != [] {
      var running' := if IsPromoted(s, ids[0]) && ids[0] !in running then running + [ids[0]] else running;
      PromoteMembers(s, running', ids[1..]);
      assert ids == [ids[0]] + ids[1..];
      assert Promote(s, running, ids) == Promote(s, running', ids[1..]);
    }
  }
}
