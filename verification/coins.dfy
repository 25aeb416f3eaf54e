/**
  Coin pickup: the box test between the player and a coin, the effect of one
  pickup pass on a coin, and the counts that tie the coin counter to the
  coins' flags.
 */
module Coins {
  import opened Entities

  /**
    The player's box (centred on x, bottom edge at y) overlaps the coin's
    box (centred on the coin's x and y).
   */
  predicate Touches(p: Player, c: Coin) {
    && p.x + PlayerWidth / 2.0 > c.x - c.width / 2.0
    && p.x - PlayerWidth / 2.0 < c.x + c.width / 2.0
    && p.y - PlayerHeight < c.y + c.height / 2.0
    && p.y > c.y - c.height / 2.0
  }

  /** A coin is picked up in this pass: it is still there and touched. */
  predicate PicksUp(p: Player, c: Coin) {
    !c.collected && Touches(p, c)
  }

  /**
    The coin after the pickup pass: it is collected exactly when it already
    was or the player touches it, it never reverts, and nothing but the flag
    changes.
   */
  function CollectCoin(p: Player, c: Coin): (r: Coin)
    ensures r.collected <==> c.collected || Touches(p, c)
    ensures c.collected ==> r == c
    ensures !Touches(p, c) ==> r == c
    ensures r.(collected := c.collected) == c
  {
    if PicksUp(p, c) then c.(collected := true) else c
  }

  /** The number of coins collected in `cs`. */
  function CollectedCount(cs: seq<Coin>): (n: nat)
    ensures n <= |cs|
  {
    if cs == [] then 0
    else CollectedCount(cs[..|cs| - 1]) + (if cs[|cs| - 1].collected then 1 else 0)
  }

  /** The number of positions whose coin went from uncollected to collected. */
  function NewlyCollected(before: seq<Coin>, after: seq<Coin>): (n: nat)
    requires |before| == |after|
    ensures n <= |before|
  {
    if before == [] then 0
    else
      var k := |before| - 1;
      NewlyCollected(before[..k], after[..k])
        + (if !before[k].collected && after[k].collected then 1 else 0)
  }

  /** No coin's flag went from true back to false. */
  predicate NeverUncollects(before: seq<Coin>, after: seq<Coin>) {
    |before| == |after| &&
    forall i :: 0 <= i < |before| && before[i].collected ==> after[i].collected
  }

  /**
    When no flag reverts, the collected coins afterwards are the ones
    collected before plus the newly collected ones: the coin counter keeps
    matching the flags.
   */
  lemma {:induction false} CollectedCountGrows(before: seq<Coin>, after: seq<Coin>)
    requires NeverUncollects(before, after)
    ensures CollectedCount(after) == CollectedCount(before) + NewlyCollected(before, after)
    decreases |before|
  {
    if before != [] {
      var k := |before| - 1;
      assert NeverUncollects(before[..k], after[..k]);
      CollectedCountGrows(before[..k], after[..k]);
    }
  }

  /** Coins that are all still uncollected count zero. */
  lemma {:induction false} NoneCollected(cs: seq<Coin>)
    requires forall i :: 0 <= i < |cs| ==> !cs[i].collected
    ensures CollectedCount(cs) == 0
    decreases |cs|
  {
    if cs != [] {
      NoneCollected(cs[..|cs| - 1]);
    }
  }

  /**
    The pass collected nothing new exactly when no position went from
    uncollected to collected.
   */
  lemma {:induction false} NothingNewIffNoFlip(before: seq<Coin>, after: seq<Coin>)
    requires |before| == |after|
    ensures NewlyCollected(before, after) == 0 <==>
            forall i :: 0 <= i < |before| ==> before[i].collected || !after[i].collected
    decreases |before|
  {
    if before != [] {
      var k := |before| - 1;
      NothingNewIffNoFlip(before[..k], after[..k]);
      assert forall i :: 0 <= i < k ==> before[..k][i] == before[i] && after[..k][i] == after[i];
    }
  }

  /**
    A second pickup pass with the player where it stands changes no coin and
    finds nothing new: every coin it touches was taken by the first pass.
   */
  lemma SecondPassCollectsNothing(p: Player, before: seq<Coin>, after: seq<Coin>, again: seq<Coin>)
    requires |before| == |after| == |again|
    requires forall i :: 0 <= i < |before| ==> after[i] == CollectCoin(p, before[i])
    requires forall i :: 0 <= i < |after| ==> again[i] == CollectCoin(p, after[i])
    ensures again == after
    ensures NewlyCollected(after, again) == 0
  {
    NothingNewIffNoFlip(after, again);
  }
}
