/** Integer facts about pages: which page and which offset a token position falls in. */
module Arith {

  type pos = n: int | 0 < n witness 1

  /** First token position of page `i`, written as a sum so that proofs about it stay linear. */
  function Start(i: nat, B: pos): nat {
    if i == 0 then 0 else Start(i - 1, B) + B
  }

  /** Pages needed to hold `n` tokens: `(n + B - 1) // B`. */
  function Ceil(n: nat, B: pos): nat {
    (n + B - 1) / B
  }

  function Min(a: int, b: int): int {
    if a < b then a else b
  }

  function Max(a: int, b: int): int {
    if a < b then b else a
  }

  lemma {:induction false} StartIsProduct(i: nat, B: pos)
    ensures Start(i, B) == i * B
  {
    if i > 0 {
      StartIsProduct(i - 1, B);
    }
  }

  lemma {:induction false} StartMono(i: nat, j: nat, B: pos)
    requires i <= j
    ensures Start(i, B) + (j - i) <= Start(j, B)
  {
    if i < j {
      StartMono(i, j - 1, B);
    }
  }

  /** A position determines its page. */
  lemma StartUnique(i: nat, j: nat, n: int, B: pos)
    requires Start(i, B) <= n < Start(i + 1, B)
    requires Start(j, B) <= n < Start(j + 1, B)
    ensures i == j
  {
    if i < j {
      StartMono(i + 1, j, B);
    } else if j < i {
      StartMono(j + 1, i, B);
    }
  }

  /** `n // B` is the page of position `n`, and `n % B` its offset there. */
  lemma DivStart(n: nat, B: pos)
    ensures Start(n / B, B) <= n < Start(n / B + 1, B)
    ensures n % B == n - Start(n / B, B)
  {
    StartIsProduct(n / B, B);
    StartIsProduct(n / B + 1, B);
  }

  lemma DivUnique(n: nat, B: pos, q: nat)
    requires Start(q, B) <= n < Start(q + 1, B)
    ensures n / B == q
  {
    DivStart(n, B);
    StartUnique(n / B, q, n, B);
  }

  lemma CeilUnique(n: nat, B: pos, q: nat)
    requires (q == 0 && n == 0) || (q > 0 && Start(q - 1, B) < n <= Start(q, B))
    ensures Ceil(n, B) == q
  {
    DivUnique(n + B - 1, B, q);
  }

  lemma CeilBounds(n: nat, B: pos)
    ensures n <= Start(Ceil(n, B), B) < n + B
    ensures Ceil(n, B) > 0 ==> Start(Ceil(n, B) - 1, B) < n
    ensures Ceil(n, B) == 0 <==> n == 0
  {
    DivStart(n + B - 1, B);
  }

  lemma StartStrict(i: nat, j: nat, B: pos)
    requires Start(i, B) < Start(j, B)
    ensures i < j
  {
    if j <= i {
      StartMono(j, i, B);
    }
  }

  lemma CeilMono(m: nat, n: nat, B: pos)
    requires m <= n
    ensures Ceil(m, B) <= Ceil(n, B)
  {
    CeilBounds(m, B);
    CeilBounds(n, B);
    if Ceil(m, B) > 0 {
      StartStrict(Ceil(m, B) - 1, Ceil(n, B), B);
    }
  }

  lemma {:induction false} StartAdd(i: nat, j: nat, B: pos)
    ensures Start(i + j, B) == Start(i, B) + Start(j, B)
  {
    if j > 0 {
      StartAdd(i, j - 1, B);
    }
  }

  /** Whole pages already held plus the pages of the rest cover exactly the total. */
  lemma CeilSplit(k: nat, n: nat, B: pos)
    ensures Ceil(Start(k, B) + n, B) == k + Ceil(n, B)
  {
    var q := Ceil(n, B);
    CeilBounds(n, B);
    if q == 0 {
      if k > 0 { StartMono(k - 1, k, B); }
    } else {
      StartAdd(k, q, B);
      StartAdd(k, q - 1, B);
    }
    CeilUnique(Start(k, B) + n, B, k + q);
  }
}
