/** What a completion is, said of the tokens alone: where decoding stops, and that nothing else could have come out. */
module Completions {
  import opened Requests
  import opened Scheduling
  import opened Forward
  import opened Runs

  /** A whole run of the request from `n` tokens on. Every further token is the network's choice after all that comes
      before it, none but the last is the end token unless that is ignored, both length limits hold, and the run ends at
      one of them or at the end token. */
  ghost predicate WholeRun(net: Net, c: Config, r: Req, n: nat, t: seq<Token>) {
    && 0 < n < |t|
    && (forall k: nat :: n <= k < |t| ==> t[k] == NextToken(net, t[..k]))
    && (forall k: nat :: n <= k < |t| - 1 ==> r.ignoreEos || t[k] != c.eos)
    && |t| - r.numPrompt <= r.maxTokens && |t| <= c.maxLen
    && (|t| - r.numPrompt == r.maxTokens || |t| == c.maxLen || (!r.ignoreEos && t[|t| - 1] == c.eos))
  }

  /** The reference decoder makes such a run out of every request within its limits. */
  lemma {:induction false} DecodeWhole(net: Net, c: Config, r: Req, tokens: seq<Token>)
    requires tokens != [] && |tokens| - r.numPrompt < r.maxTokens && |tokens| < c.maxLen
    ensures tokens <= Decode(net, c, r, tokens) && WholeRun(net, c, r, |tokens|, Decode(net, c, r, tokens))
    decreases c.maxLen - |tokens|
  {
    var t := tokens + [NextToken(net, tokens)];
    assert t[..|tokens|] == tokens;
    if !Stops(c, r.(tokens := t)) {
      DecodeWhole(net, c, r, t);
      var u := Decode(net, c, r, t);
      assert u[..|tokens|] == tokens && u[|tokens|] == t[|tokens|];
    }
  }

  lemma {:induction false} SamePrefix(net: Net, c: Config, r: Req, n: nat, t: seq<Token>, u: seq<Token>, k: nat)
    requires WholeRun(net, c, r, n, t) && WholeRun(net, c, r, n, u) && t[..n] == u[..n] && n <= k <= |t| <= |u|
    ensures t[..k] == u[..k]
    decreases k
  {
    if k > n {
      SamePrefix(net, c, r, n, t, u, k - 1);
      assert t[..k] == t[..k - 1] + [t[k - 1]] && u[..k] == u[..k - 1] + [u[k - 1]];
    }
  }

  lemma NotShorter(net: Net, c: Config, r: Req, n: nat, t: seq<Token>, u: seq<Token>)
    requires WholeRun(net, c, r, n, t) && WholeRun(net, c, r, n, u) && t[..n] == u[..n] && |t| <= |u|
    ensures t == u
  {
    SamePrefix(net, c, r, n, t, u, |t|);
    assert u[|t| - 1] == u[..|t|][|t| - 1];
  }

  /** No other run from the same tokens has those properties. */
  lemma WholeUnique(net: Net, c: Config, r: Req, n: nat, t: seq<Token>, u: seq<Token>)
    requires WholeRun(net, c, r, n, t) && WholeRun(net, c, r, n, u) && t[..n] == u[..n]
    ensures t == u
  {
    if |t| <= |u| { NotShorter(net, c, r, n, t, u); } else { NotShorter(net, c, r, n, u, t); }
  }
}
