/** LPM ranking: a stable sort of the waiting queue by snapshot hits. */
module Ranking {
  import opened Seqs
  import opened Requests
  import opened Scheduling

  type Prefixes = map<nat, seq<nat>>

  ghost predicate ByHits(hits: nat -> nat, s: seq<nat>) {
    forall i, j :: 0 <= i < j < |s| ==> hits(s[i]) >= hits(s[j])
  }

  /** The requests of `s` with exactly `h` hits, in their order in `s`. */
  function WithHits(hits: nat -> nat, s: seq<nat>, h: nat): seq<nat> {
    if s == [] then []
    else (if hits(s[0]) == h then [s[0]] else []) + WithHits(hits, s[1..], h)
  }

  lemma {:induction false} InsertPermutes(hits: nat -> nat, x: nat, s: seq<nat>)
    ensures multiset(InsertBy(hits, x, s)) == multiset{x} + multiset(s)
  {
    if s != [] && hits(s[0]) > hits(x) {
      InsertPermutes(hits, x, s[1..]);
      assert s == [s[0]] + s[1..];
    }
  }

  lemma {:induction false} InsertSorted(hits: nat -> nat, x: nat, s: seq<nat>)
    requires ByHits(hits, s)
    ensures ByHits(hits, InsertBy(hits, x, s))
    ensures forall y :: y in InsertBy(hits, x, s) ==> y == x || y in s
  {
    if s != [] && hits(s[0]) > hits(x) {
      InsertSorted(hits, x, s[1..]);
      var t := InsertBy(hits, x, s[1..]);
      forall j | 0 <= j < |t|
        ensures hits(s[0]) >= hits(t[j])
      {
        assert t[j] in t;
      }
    }
  }

  lemma {:induction false} InsertStable(hits: nat -> nat, x: nat, s: seq<nat>, h: nat)
    ensures WithHits(hits, InsertBy(hits, x, s), h) == WithHits(hits, [x] + s, h)
  {
    assert ([x] + s)[1..] == s;
    if s != [] && hits(s[0]) > hits(x) {
      InsertStable(hits, x, s[1..], h);
      assert ([x] + s[1..])[1..] == s[1..];
      assert ([s[0]] + InsertBy(hits, x, s[1..]))[1..] == InsertBy(hits, x, s[1..]);
    }
  }

  /** Ranking is a permutation, in order of hits, that never swaps two requests with equal hits. */
  lemma {:induction false} SortStable(hits: nat -> nat, ids: seq<nat>)
    ensures multiset(SortBy(hits, ids)) == multiset(ids)
    ensures ByHits(hits, SortBy(hits, ids))
    ensures forall h: nat :: WithHits(hits, SortBy(hits, ids), h) == WithHits(hits, ids, h)
  {
    if ids != [] {
      var rest := SortBy(hits, ids[1..]);
      SortStable(hits, ids[1..]);
      InsertSorted(hits, ids[0], rest);
      InsertPermutes(hits, ids[0], rest);
      assert ids == [ids[0]] + ids[1..];
      forall h: nat
        ensures WithHits(hits, SortBy(hits, ids), h) == WithHits(hits, ids, h)
      {
        InsertStable(hits, ids[0], rest, h);
        assert ([ids[0]] + rest)[1..] == rest;
      }
    }
  }

  lemma {:induction false} WithHitsAbove(hits: nat -> nat, s: seq<nat>, h: nat)
    requires forall i :: 0 <= i < |s| ==> hits(s[i]) != h
    ensures WithHits(hits, s, h) == []
  {
    if s != [] {
      WithHitsAbove(hits, s[1..], h);
    }
  }

  lemma NoHitsNoRequests(hits: nat -> nat, s: seq<nat>)
    ensures s != [] ==> exists h: nat :: WithHits(hits, s, h) != []
  {
    if s != [] {
      assert s[0] in WithHits(hits, s, hits(s[0]));
    }
  }

  /** Those two properties leave no choice: any ranking that has them is this one. */
  lemma {:induction false} StableSortUnique(hits: nat -> nat, a: seq<nat>, b: seq<nat>)
    requires ByHits(hits, a) && ByHits(hits, b)
    requires forall h: nat :: WithHits(hits, a, h) == WithHits(hits, b, h)
    ensures a == b
    decreases |a| + |b|
  {
    if a == [] || b == [] {
      var other := if a == [] then b else a;
      forall h: nat
        ensures WithHits(hits, other, h) == []
      {
        assert WithHits(hits, a, h) == WithHits(hits, b, h);
      }
      NoHitsNoRequests(hits, other);
    } else {
      HeadsAgree(hits, a, b);
      forall h: nat
        ensures WithHits(hits, a[1..], h) == WithHits(hits, b[1..], h)
      {
        assert WithHits(hits, a, h) == WithHits(hits, b, h);
        WithHitsTail(hits, a, h);
        WithHitsTail(hits, b, h);
      }
      StableSortUnique(hits, a[1..], b[1..]);
      assert a == [a[0]] + a[1..] && b == [b[0]] + b[1..];
    }
  }

  lemma WithHitsTail(hits: nat -> nat, s: seq<nat>, h: nat)
    requires s != []
    ensures WithHits(hits, s[1..], h) == if hits(s[0]) == h then WithHits(hits, s, h)[1..] else WithHits(hits, s, h)
    ensures hits(s[0]) == h ==> WithHits(hits, s, h)[0] == s[0]
  {
  }

  lemma HeadsAgree(hits: nat -> nat, a: seq<nat>, b: seq<nat>)
    requires a != [] && b != [] && ByHits(hits, a) && ByHits(hits, b)
    requires forall h: nat :: WithHits(hits, a, h) == WithHits(hits, b, h)
    ensures a[0] == b[0]
  {
    var ha, hb := hits(a[0]), hits(b[0]);
    assert WithHits(hits, a, ha) == WithHits(hits, b, ha);
    assert WithHits(hits, a, hb) == WithHits(hits, b, hb);
    WithHitsTail(hits, a, ha);
    WithHitsTail(hits, b, hb);
    if ha < hb {
      WithHitsAbove(hits, a, hb);
    } else if hb < ha {
      WithHitsAbove(hits, b, ha);
    }
  }

  /** The admission loops go through the waiting requests exactly once each. */
  lemma RankPermutes(c: Config, prefixes: Prefixes, ids: seq<nat>)
    requires NoDup(ids)
    ensures NoDup(Rank(c, prefixes, ids)) && |Rank(c, prefixes, ids)| == |ids|
    ensures forall x :: x in Rank(c, prefixes, ids) <==> x in ids
  {
    SortStable(HitsOf(prefixes), ids);
    var out := Rank(c, prefixes, ids);
    assert multiset(out) == multiset(ids);
    forall x ensures x in out <==> x in ids { assert x in multiset(out) <==> x in multiset(ids); }
    assert |multiset(out)| == |multiset(ids)|;
    NoDupMultiset(ids);
    forall i, j | 0 <= i < j < |out|
      ensures out[i] != out[j]
    {
      AtMostOnce(out, i, j);
    }
  }

  lemma {:induction false} NoDupMultiset(s: seq<nat>)
    requires NoDup(s)
    ensures forall x :: multiset(s)[x] <= 1
  {
    if s != [] {
      NoDupMultiset(s[1..]);
      assert s == [s[0]] + s[1..];
      assert s[0] !in s[1..];
      assert multiset(s) == multiset{s[0]} + multiset(s[1..]);
    }
  }

  lemma AtMostOnce(s: seq<nat>, i: int, j: int)
    requires 0 <= i < j < |s| && forall x :: multiset(s)[x] <= 1
    ensures s[i] != s[j]
  {
    assert s == s[..j] + [s[j]] + s[j + 1..];
    assert s[..j][i] == s[i];
    assert s[i] in multiset(s[..j]);
    assert multiset(s)[s[j]] == multiset(s[..j])[s[j]] + 1 + multiset(s[j + 1..])[s[j]];
  }
}
