/** Publishing the same block twice: the newer page takes over, and no lookup can tell the difference. */
module Republication {
  import opened Arith
  import opened Requests
  import opened Pages
  import opened CacheInvariant

  function Renamed(o: nat, b: nat, x: nat): nat {
    if x == o then b else x
  }

  /** The same pages, with `b` in the place of `o`. */
  function RenameAll(o: nat, b: nat, ids: seq<nat>): (r: seq<nat>)
    ensures |r| == |ids|
  {
    seq(|ids|, k requires 0 <= k < |ids| => Renamed(o, b, ids[k]))
  }

  function RenameResult(o: nat, b: nat, res: Result<seq<nat>>): Result<seq<nat>> {
    if res.Ok? then Ok(RenameAll(o, b, res.value)) else res
  }

  /** Page `b` is in use and not published yet, and the owner of `h` holds the very block it is about to publish. */
  ghost predicate Duplicate(pool: Pool, b: nat, h: int, tokens: seq<Token>, parent: Lineage) {
    && b < |pool.pages| && !pool.pages[b].Published() && Resident(pool, b)
    && h >= 0
    && SameBlock(pool, h, tokens, parent)
    && forall k {:trigger OwnerOk(pool, k)} :: k in pool.owner ==> OwnerOk(pool, k)
  }

  lemma RenameSnoc(o: nat, b: nat, ids: seq<nat>, x: nat)
    requires b !in ids && x != b
    ensures RenameAll(o, b, ids + [x]) == RenameAll(o, b, ids) + [Renamed(o, b, x)]
    ensures x in ids <==> Renamed(o, b, x) in RenameAll(o, b, ids)
  {
    if x in ids {
      var k :| 0 <= k < |ids| && ids[k] == x;
      assert RenameAll(o, b, ids)[k] == Renamed(o, b, x);
    }
    if Renamed(o, b, x) in RenameAll(o, b, ids) {
      var k :| 0 <= k < |ids| && RenameAll(o, b, ids)[k] == Renamed(o, b, x);
      assert ids[k] == x;
    }
  }

  /** The chain goes on from the new page exactly as it did from the old one. */
  lemma SameLineage(pool: Pool, b: nat, h: int, tokens: seq<Token>, parent: Lineage, matched: seq<nat>)
    requires Duplicate(pool, b, h, tokens, parent) && b !in matched
    ensures var o := pool.owner[h];
            LineageOf(Publish(pool, b, h, tokens, parent).pages, Previous([], RenameAll(o, b, matched)))
              == LineageOf(pool.pages, Previous([], matched))
  {
    assert OwnerOk(pool, h);
  }

  /** The page found for one more block is the same one, renamed, and passes or fails the same checks. */
  lemma SameExtension(c: Config, pool: Pool, b: nat, h: int, tokens: seq<Token>, parent: Lineage, r: Req, i: nat,
                      lin: Lineage)
    requires Duplicate(pool, b, h, tokens, parent) && Start(i + 1, c.B) <= |r.tokens|
    ensures var o := pool.owner[h];
            var pool' := Publish(pool, b, h, tokens, parent);
            var k := BlockHash(c, r.tokens, i);
            && (k in pool'.owner <==> k in pool.owner)
            && (k in pool.owner ==>
                  && pool.owner[k] != b && pool.owner[k] < |pool.pages|
                  && pool'.owner[k] < |pool'.pages|
                  && (Extends(c, pool', r, i, lin, pool'.owner[k]) <==> Extends(c, pool, r, i, lin, pool.owner[k]))
                  && (Extends(c, pool, r, i, lin, pool.owner[k]) ==> pool'.owner[k] == Renamed(o, b, pool.owner[k])))
  {
    assert OwnerOk(pool, h);
    var k := BlockHash(c, r.tokens, i);
    if k in pool.owner {
      assert OwnerOk(pool, k);
    }
  }

  lemma {:induction false} SameMatchFrom(c: Config, pool: Pool, b: nat, h: int, tokens: seq<Token>, parent: Lineage,
                                         r: Req, i: nat, stop: nat, matched: seq<nat>)
    requires Duplicate(pool, b, h, tokens, parent) && h in pool.owner && b !in matched && r.table == []
    ensures var o := pool.owner[h];
            MatchFrom(c, Publish(pool, b, h, tokens, parent), r, i, stop, RenameAll(o, b, matched))
              == RenameResult(o, b, MatchFrom(c, pool, r, i, stop, matched))
    decreases stop - i
  {
    hide Publish, Extends, SameBlock, Duplicate, BlockHash;
    if i < stop && Start(i + 1, c.B) <= |r.tokens| {
      var o := pool.owner[h];
      var k := BlockHash(c, r.tokens, i);
      SameExtension(c, pool, b, h, tokens, parent, r, i, ROOT);
      if k in pool.owner {
        SameLineage(pool, b, h, tokens, parent, matched);
        var lin := LineageOf(pool.pages, Previous([], matched));
        if lin.Ok? {
          SameExtension(c, pool, b, h, tokens, parent, r, i, lin.value);
          RenameSnoc(o, b, matched, pool.owner[k]);
          SameMatchFrom(c, pool, b, h, tokens, parent, r, i + 1, stop, matched + [pool.owner[k]]);
        }
      }
    }
  }

  /** Canonical lineage makes re-publication transparent: every request that holds no pages yet matches just as many
      blocks as before, in the same pages but for the owner, whose place the new page takes. */
  lemma RepublishTransparent(c: Config, pool: Pool, b: nat, h: int, tokens: seq<Token>, parent: Lineage, r: Req)
    requires Duplicate(pool, b, h, tokens, parent) && r.table == [] && r.cached == 0
    ensures MatchPrefix(c, Publish(pool, b, h, tokens, parent), r)
            == RenameResult(pool.owner[h], b, MatchPrefix(c, pool, r))
  {
    SameMatchFrom(c, pool, b, h, tokens, parent, r, 0, Max(0, r.NumBlocks(c.B) - 1), []);
  }
}
