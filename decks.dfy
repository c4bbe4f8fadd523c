/** Building, shuffling and dealing the tile set (src/managers/DeckManager.ts). */
module Decks {
  import opened Dominoes
  import opened TileSets
  import opened Hands

  /** Pip pairs in lexicographic order. */
  predicate PairLess(p: (int, int), q: (int, int)) {
    p.0 < q.0 || (p.0 == q.0 && p.1 < q.1)
  }

  /** The pairs the inner loop emits for one `top`: (top, top), (top, top + 1), …, (top, maxPip). */
  function Row(top: int, maxPip: int): (r: seq<(int, int)>)
    ensures |r| == if top <= maxPip then maxPip - top + 1 else 0
    ensures forall k :: 0 <= k < |r| ==> r[k] == (top, top + k)
  {
    if top > maxPip then [] else seq(maxPip - top + 1, k => (top, top + k))
  }

  /** The pairs emitted by the outer loop before it reaches `top`: rows 0 … top - 1. */
  function PairsBefore(top: nat, maxPip: int): seq<(int, int)> {
    if top == 0 then [] else PairsBefore(top - 1, maxPip) + Row(top - 1, maxPip)
  }

  /** All pairs, in the order of the nested ascending loop. */
  function AllPairs(maxPip: int): seq<(int, int)> {
    if maxPip < 0 then [] else PairsBefore(maxPip + 1, maxPip)
  }

  /** Tiles numbered by position: the k-th pair becomes tile k, available. */
  function DeckOf(pairs: seq<(int, int)>): (deck: seq<Domino>)
    ensures |deck| == |pairs|
    ensures forall k :: 0 <= k < |pairs| ==> deck[k] == NewDomino(k, pairs[k].0, pairs[k].1)
  {
    seq(|pairs|, k requires 0 <= k < |pairs| => NewDomino(k, pairs[k].0, pairs[k].1))
  }

  /** The tile set `generateTileSet` emits for a config. */
  function CanonicalDeck(config: TileConfig): seq<Domino> {
    DeckOf(AllPairs(config.maxPip))
  }

  lemma DeckOfSnoc(pairs: seq<(int, int)>, p: (int, int))
    ensures DeckOf(pairs + [p]) == DeckOf(pairs) + [NewDomino(|pairs|, p.0, p.1)]
  {
    var a := DeckOf(pairs + [p]);
    var b := DeckOf(pairs) + [NewDomino(|pairs|, p.0, p.1)];
    assert |a| == |b|;
    forall k | 0 <= k < |a| ensures a[k] == b[k] {
      if k < |pairs| {
        assert (pairs + [p])[k] == pairs[k];
      }
    }
  }

  /** `2 * |rows 0 … top - 1|` in closed form. */
  lemma {:induction false} PairsBeforeLength(top: nat, maxPip: int)
    requires top <= maxPip + 1
    ensures 2 * |PairsBefore(top, maxPip)| == top * (2 * maxPip + 3 - top)
  {
    if top > 0 {
      PairsBeforeLength(top - 1, maxPip);
      assert |Row(top - 1, maxPip)| == maxPip - top + 2;
      assert top * (2 * maxPip + 3 - top) == (top - 1) * (2 * maxPip + 4 - top) + 2 * (maxPip - top + 2);
    }
  }

  /** Every pair of rows 0 … top - 1 has 0 <= a < top and a <= b <= maxPip. */
  lemma {:induction false} PairsBeforeBounds(top: nat, maxPip: int)
    requires top <= maxPip + 1
    ensures forall k :: 0 <= k < |PairsBefore(top, maxPip)| ==>
              0 <= PairsBefore(top, maxPip)[k].0 < top
              && PairsBefore(top, maxPip)[k].0 <= PairsBefore(top, maxPip)[k].1 <= maxPip
  {
    if top > 0 {
      PairsBeforeBounds(top - 1, maxPip);
      var prev, row := PairsBefore(top - 1, maxPip), Row(top - 1, maxPip);
      var all := PairsBefore(top, maxPip);
      assert all == prev + row;
      forall k | 0 <= k < |all|
        ensures 0 <= all[k].0 < top && all[k].0 <= all[k].1 <= maxPip
      {
        if k < |prev| {
          assert all[k] == prev[k];
        } else {
          assert all[k] == row[k - |prev|];
        }
      }
    }
  }

  /** Rows 0 … top - 1 are in strictly increasing lexicographic order. */
  lemma {:induction false} PairsBeforeOrdered(top: nat, maxPip: int)
    requires top <= maxPip + 1
    ensures forall i, j :: 0 <= i < j < |PairsBefore(top, maxPip)| ==>
              PairLess(PairsBefore(top, maxPip)[i], PairsBefore(top, maxPip)[j])
  {
    if top > 0 {
      PairsBeforeOrdered(top - 1, maxPip);
      PairsBeforeBounds(top - 1, maxPip);
      var prev, row := PairsBefore(top - 1, maxPip), Row(top - 1, maxPip);
      var all := PairsBefore(top, maxPip);
      assert all == prev + row;
      forall i, j | 0 <= i < j < |all| ensures PairLess(all[i], all[j]) {
        if j < |prev| {
          assert all[i] == prev[i] && all[j] == prev[j];
        } else if i >= |prev| {
          assert all[i] == row[i - |prev|] && all[j] == row[j - |prev|];
        } else {
          assert all[i] == prev[i] && all[j] == row[j - |prev|];
        }
      }
    }
  }

  /** Rows 0 … top - 1 hold every pair 0 <= a < top, a <= b <= maxPip. */
  lemma {:induction false} PairsBeforeComplete(top: nat, maxPip: int)
    requires top <= maxPip + 1
    ensures forall a, b :: 0 <= a < top && a <= b <= maxPip ==> (a, b) in PairsBefore(top, maxPip)
  {
    if top > 0 {
      PairsBeforeComplete(top - 1, maxPip);
      var prev, row := PairsBefore(top - 1, maxPip), Row(top - 1, maxPip);
      var all := PairsBefore(top, maxPip);
      assert all == prev + row;
      forall a, b | 0 <= a < top && a <= b <= maxPip ensures (a, b) in all {
        if a < top - 1 {
          assert (a, b) in prev;
        } else {
          assert row[b - a] == (a, b);
        }
      }
    }
  }

  /** Rows 0 … top - 1 hold exactly the pairs 0 <= a < top, a <= b <= maxPip, in strictly
      increasing lexicographic order. */
  lemma PairsBeforeShape(top: nat, maxPip: int)
    requires top <= maxPip + 1
    ensures forall k :: 0 <= k < |PairsBefore(top, maxPip)| ==>
              0 <= PairsBefore(top, maxPip)[k].0 < top
              && PairsBefore(top, maxPip)[k].0 <= PairsBefore(top, maxPip)[k].1 <= maxPip
    ensures forall i, j :: 0 <= i < j < |PairsBefore(top, maxPip)| ==>
              PairLess(PairsBefore(top, maxPip)[i], PairsBefore(top, maxPip)[j])
    ensures forall a, b :: 0 <= a < top && a <= b <= maxPip ==> (a, b) in PairsBefore(top, maxPip)
  {
    PairsBeforeBounds(top, maxPip);
    PairsBeforeOrdered(top, maxPip);
    PairsBeforeComplete(top, maxPip);
  }

  /** The tile count is the size of the generated set (for maxPip < -2 the closed form is
      positive while the loop emits nothing, so the bound is needed). */
  lemma AllPairsCount(config: TileConfig)
    requires config.maxPip >= -2
    ensures |CanonicalDeck(config)| == TileCount(config)
  {
    var m := config.maxPip;
    if m >= 0 {
      PairsBeforeLength(m + 1, m);
    } else if m == -1 {
    } else {
      assert m == -2;
    }
  }

  function PipPair(d: Domino): (int, int) {
    (d.topIndex, d.bottomIndex)
  }

  function PipPairs(deck: seq<Domino>): (r: seq<(int, int)>)
    ensures |r| == |deck| && forall k :: 0 <= k < |deck| ==> r[k] == PipPair(deck[k])
  {
    seq(|deck|, k requires 0 <= k < |deck| => PipPair(deck[k]))
  }

  /** Ids run 0 … n - 1 and every tile has 0 <= top <= bottom <= maxPip. */
  lemma CanonicalDeckIds(config: TileConfig)
    ensures forall k :: 0 <= k < |CanonicalDeck(config)| ==>
              CanonicalDeck(config)[k].id == k && CanonicalDeck(config)[k].available
              && 0 <= CanonicalDeck(config)[k].topIndex <= CanonicalDeck(config)[k].bottomIndex <= config.maxPip
  {
    if config.maxPip >= 0 {
      PairsBeforeShape(config.maxPip + 1, config.maxPip);
    }
  }

  /** Every pair 0 <= a <= b <= maxPip appears, and no pair appears twice. */
  lemma CanonicalDeckPairs(config: TileConfig)
    ensures forall a, b :: 0 <= a <= b <= config.maxPip ==> (a, b) in PipPairs(CanonicalDeck(config))
    ensures forall i, j :: 0 <= i < j < |CanonicalDeck(config)| ==>
              PipPair(CanonicalDeck(config)[i]) != PipPair(CanonicalDeck(config)[j])
  {
    var m := config.maxPip;
    if m >= 0 {
      PairsBeforeShape(m + 1, m);
      var ps := AllPairs(m);
      assert PipPairs(CanonicalDeck(config)) == ps;
      forall i, j | 0 <= i < j < |ps| ensures ps[i] != ps[j] {
        assert PairLess(ps[i], ps[j]);
      }
    }
  }

  /** Tests may rely on tile id 0 being the double blank. */
  lemma FirstTileIsDoubleBlank(config: TileConfig)
    requires config.maxPip >= 0
    ensures |CanonicalDeck(config)| > 0 && CanonicalDeck(config)[0] == NewDomino(0, 0, 0)
  {
    PairsBeforeShape(config.maxPip + 1, config.maxPip);
    var ps := AllPairs(config.maxPip);
    assert (0, 0) in ps;
    var k :| 0 <= k < |ps| && ps[k] == (0, 0);
    assert k == 0;
  }

  /** No value occurs twice in the sequence. */
  ghost predicate NoDuplicates(s: seq<Domino>) {
    forall x :: multiset(s)[x] <= 1
  }

  lemma {:induction false} DistinctIdsNoDuplicates(s: seq<Domino>)
    requires forall i, j :: 0 <= i < j < |s| ==> s[i].id != s[j].id
    ensures NoDuplicates(s)
  {
    if s != [] {
      var rest := s[1..];
      DistinctIdsNoDuplicates(rest);
      assert s == [s[0]] + rest;
      assert s[0] !in rest;
    }
  }

  lemma CanonicalDeckNoDuplicates(config: TileConfig)
    ensures NoDuplicates(CanonicalDeck(config))
  {
    DistinctIdsNoDuplicates(CanonicalDeck(config));
  }

  function Clamp(x: int, n: nat): (r: nat)
    ensures r <= n
  {
    if x < 0 then 0 else if x > n then n else x
  }

  /** The block `distributeTiles` hands seat p: positions p*k … p*k + k - 1 that exist. */
  function DealtBlock(tiles: seq<Domino>, p: nat, k: int): seq<Domino> {
    if k <= 0 then []
    else
      NonNegativeProduct(p, k);
      tiles[Clamp(p * k, |tiles|)..Clamp(p * k + k, |tiles|)]
  }

  lemma NonNegativeProduct(p: nat, k: int)
    requires k > 0
    ensures 0 <= p * k <= p * k + k
  {
  }

  /** A full block has exactly k tiles. */
  lemma FullBlock(tiles: seq<Domino>, p: nat, k: int)
    requires k > 0 && (p + 1) * k <= |tiles|
    ensures |DealtBlock(tiles, p, k)| == k
  {
    NonNegativeProduct(p, k);
    assert (p + 1) * k == p * k + k;
  }

  /** Two non-overlapping slices of a sequence without repeats share no element. */
  lemma DisjointSlices(s: seq<Domino>, a: nat, b: nat, c: nat, d: nat, x: Domino)
    requires a <= b <= c <= d <= |s| && NoDuplicates(s)
    ensures !(x in s[a..b] && x in s[c..d])
  {
    assert s == s[..c] + s[c..];
    assert s[..c] == s[..a] + s[a..b] + s[b..c];
    assert s[c..] == s[c..d] + s[d..];
    assert multiset(s)[x] == multiset(s[..c])[x] + multiset(s[c..])[x];
    assert multiset(s[..c])[x] >= multiset(s[a..b])[x];
    assert multiset(s[c..])[x] >= multiset(s[c..d])[x];
  }

  lemma BlocksOrdered(p: nat, q: nat, k: int)
    requires p < q && k > 0
    ensures 0 <= p * k <= p * k + k <= q * k <= q * k + k
  {
    var d := q - p - 1;
    NonNegativeProduct(p, k);
    NonNegativeProduct(d, k);
    assert q * k == p * k + k + d * k;
  }

  /** Blocks of different seats come from disjoint positions, so on a deck without
      repeated tiles no tile is dealt to two seats. */
  lemma DealtBlocksDisjoint(tiles: seq<Domino>, p: nat, q: nat, k: int, x: Domino)
    requires NoDuplicates(tiles) && p < q
    ensures !(x in DealtBlock(tiles, p, k) && x in DealtBlock(tiles, q, k))
  {
    if k > 0 {
      var n := |tiles|;
      BlocksOrdered(p, q, k);
      DisjointSlices(tiles, Clamp(p * k, n), Clamp(p * k + k, n), Clamp(q * k, n), Clamp(q * k + k, n), x);
    }
  }

  /** The standard game: 28 tiles, 7 per seat, every tile of the deck is dealt and none remains. */
  lemma StandardDealUsesWholeDeck(tiles: seq<Domino>)
    requires |tiles| == 28
    ensures DealtBlock(tiles, 0, 7) + DealtBlock(tiles, 1, 7) + DealtBlock(tiles, 2, 7) + DealtBlock(tiles, 3, 7) == tiles
  {
    assert tiles == tiles[0..7] + tiles[7..14] + tiles[14..21] + tiles[21..28];
  }

  /** `Math.floor(totalTiles / playerCount)` for a positive player count. */
  function GetTilesPerPlayer(config: TileConfig, playerCount: int): (k: int)
    requires playerCount > 0
    ensures k * playerCount <= TileCount(config) < (k + 1) * playerCount
  {
    TileCount(config) / playerCount
  }

  lemma StandardTilesPerPlayer()
    ensures GetTilesPerPlayer(DefaultTileConfig, 4) == 7
  {
  }

  function Min(a: int, b: int): int {
    if a <= b then a else b
  }

  class DeckManager {
    var tiles: seq<Domino>

    constructor ()
      ensures tiles == []
    {
      tiles := [];
    }

    /** Resets the deck and fills it by the nested ascending loop; returns a copy. */
    method GenerateTileSet(config: TileConfig) returns (r: seq<Domino>)
      modifies this
      ensures tiles == CanonicalDeck(config) && r == tiles
    {
      tiles := [];
      var id := 0;
      var top := 0;
      while top <= config.maxPip
        invariant 0 <= top && (config.maxPip >= 0 ==> top <= config.maxPip + 1)
        invariant config.maxPip < 0 ==> top == 0
        invariant tiles == DeckOf(PairsBefore(top, config.maxPip)) && id == |tiles|
      {
        var bottom := top;
        while bottom <= config.maxPip
          invariant top <= bottom <= config.maxPip + 1
          invariant tiles == DeckOf(PairsBefore(top, config.maxPip) + Row(top, config.maxPip)[..bottom - top])
          invariant id == |tiles|
        {
          var row := Row(top, config.maxPip);
          assert row[..bottom - top + 1] == row[..bottom - top] + [(top, bottom)];
          DeckOfSnoc(PairsBefore(top, config.maxPip) + row[..bottom - top], (top, bottom));
          assert PairsBefore(top, config.maxPip) + row[..bottom - top + 1]
              == (PairsBefore(top, config.maxPip) + row[..bottom - top]) + [(top, bottom)];
          tiles := tiles + [NewDomino(id, top, bottom)];
          id := id + 1;
          bottom := bottom + 1;
        }
        assert Row(top, config.maxPip)[..bottom - top] == Row(top, config.maxPip);
        top := top + 1;
      }
      r := tiles;
    }

    /** Fisher–Yates: for i from the end down to 1, swap position i with a position j in [0, i].
        The random draw is a nondeterministic choice within that range. */
    method ShuffleTiles()
      modifies this
      ensures |tiles| == |old(tiles)|
      ensures multiset(tiles) == multiset(old(tiles))
    {
      var i := |tiles| - 1;
      while i > 0
        invariant i < |tiles| || |tiles| == 0
        invariant |tiles| == |old(tiles)|
        invariant multiset(tiles) == multiset(old(tiles))
      {
        var j :| 0 <= j <= i;
        tiles := tiles[i := tiles[j]][j := tiles[i]];
        i := i - 1;
      }
    }

    /** The inner dealing loop for seat p: positions p*k … p*k + k - 1 that exist are
        appended to the seat's hand and to the returned block. */
    method DealTo(player: PlayerHand, p: nat, tilesPerPlayer: int) returns (hand: seq<Domino>)
      modifies player
      ensures hand == DealtBlock(tiles, p, tilesPerPlayer)
      ensures player.tiles == old(player.tiles) + hand && player.score == old(player.score)
    {
      hand := [];
      if tilesPerPlayer <= 0 {
        return;
      }
      NonNegativeProduct(p, tilesPerPlayer);
      var start := p * tilesPerPlayer;
      var t := 0;
      while t < tilesPerPlayer
        invariant 0 <= t <= tilesPerPlayer
        invariant hand == tiles[Clamp(start, |tiles|)..Clamp(start + t, |tiles|)]
        invariant player.tiles == old(player.tiles) + hand && player.score == old(player.score)
      {
        var tileIndex := start + t;
        if tileIndex < |tiles| {
          var tile := tiles[tileIndex];
          player.AddTile(tile);
          hand := hand + [tile];
        }
        t := t + 1;
      }
    }

    /** Shuffles, then deals every seat its block in seat order (see `DealTo`). */
    method DistributeTiles(players: seq<PlayerHand>, tilesPerPlayer: int) returns (hands: seq<seq<Domino>>)
      requires forall i, j :: 0 <= i < j < |players| ==> players[i] != players[j]
      modifies this, players
      ensures |tiles| == |old(tiles)| && multiset(tiles) == multiset(old(tiles))
      ensures |hands| == |players|
      ensures forall p :: 0 <= p < |players| ==> hands[p] == DealtBlock(tiles, p, tilesPerPlayer)
      ensures forall p :: 0 <= p < |players| ==>
                players[p].tiles == old(players[p].tiles) + hands[p] && players[p].score == old(players[p].score)
    {
      ShuffleTiles();
      hands := [];
      var p := 0;
      while p < |players|
        invariant 0 <= p <= |players| && |hands| == p
        invariant |tiles| == |old(tiles)| && multiset(tiles) == multiset(old(tiles))
        invariant forall q :: 0 <= q < p ==> hands[q] == DealtBlock(tiles, q, tilesPerPlayer)
        invariant forall q :: 0 <= q < p ==> players[q].tiles == old(players[q].tiles) + hands[q]
        invariant forall q :: p <= q < |players| ==> players[q].tiles == old(players[q].tiles)
        invariant forall q :: 0 <= q < |players| ==> players[q].score == old(players[q].score)
      {
        var hand := DealTo(players[p], p, tilesPerPlayer);
        hands := hands + [hand];
        p := p + 1;
      }
    }
  }
}
