/** A player's hand (src/models/PlayerHand.ts). */
module Hands {
  import opened Wrappers
  import opened Dominoes

  datatype PlayerType = Human | Ai | Remote
  datatype PlayerPosition = Bottom | Left | Top | Right

  /** The plain record `toJSON` produces and `fromJSON` consumes. */
  datatype PlayerHandData = PlayerHandData(
    tiles: seq<DominoData>,
    score: int,
    playerType: PlayerType,
    position: PlayerPosition,
    name: string)

  /** A tile can be played when one of its ends matches one of the two open ends. */
  predicate Playable(t: Domino, leftBranch: int, rightBranch: int) {
    Touches(t, leftBranch) || Touches(t, rightBranch)
  }

  /** `tiles.filter(...)` in `getValidTiles`: the playable tiles, in hand order. */
  function ValidTilesOf(tiles: seq<Domino>, leftBranch: int, rightBranch: int): (r: seq<Domino>)
    ensures |r| <= |tiles|
    ensures forall t :: t in r ==> Playable(t, leftBranch, rightBranch)
  {
    if tiles == [] then []
    else
      (if Playable(tiles[0], leftBranch, rightBranch) then [tiles[0]] else [])
      + ValidTilesOf(tiles[1..], leftBranch, rightBranch)
  }

  /** Every playable tile of the hand is kept, and nothing else. */
  lemma {:induction false} ValidTilesMembership(tiles: seq<Domino>, leftBranch: int, rightBranch: int, t: Domino)
    ensures t in ValidTilesOf(tiles, leftBranch, rightBranch) <==> t in tiles && Playable(t, leftBranch, rightBranch)
  {
    if tiles != [] {
      ValidTilesMembership(tiles[1..], leftBranch, rightBranch, t);
      assert tiles == [tiles[0]] + tiles[1..];
    }
  }

  /** A playable tile is kept as often as it occurs in the hand; others never. */
  lemma {:induction false} ValidTilesMultiplicity(tiles: seq<Domino>, leftBranch: int, rightBranch: int, t: Domino)
    ensures multiset(ValidTilesOf(tiles, leftBranch, rightBranch))[t]
         == if Playable(t, leftBranch, rightBranch) then multiset(tiles)[t] else 0
  {
    if tiles != [] {
      ValidTilesMultiplicity(tiles[1..], leftBranch, rightBranch, t);
      assert tiles == [tiles[0]] + tiles[1..];
    }
  }

  /** Hand order is preserved: filtering distributes over concatenation. */
  lemma {:induction false} ValidTilesAppend(a: seq<Domino>, b: seq<Domino>, leftBranch: int, rightBranch: int)
    ensures ValidTilesOf(a + b, leftBranch, rightBranch)
         == ValidTilesOf(a, leftBranch, rightBranch) + ValidTilesOf(b, leftBranch, rightBranch)
  {
    if a == [] {
      assert a + b == b;
    } else {
      assert (a + b)[0] == a[0];
      assert (a + b)[1..] == a[1..] + b;
      ValidTilesAppend(a[1..], b, leftBranch, rightBranch);
    }
  }

  /** The filter is empty exactly when no tile of the hand is playable. */
  lemma ValidTilesEmptyIff(tiles: seq<Domino>, leftBranch: int, rightBranch: int)
    ensures |ValidTilesOf(tiles, leftBranch, rightBranch)| > 0
        <==> exists t :: t in tiles && Playable(t, leftBranch, rightBranch)
  {
    if exists t :: t in tiles && Playable(t, leftBranch, rightBranch) {
      var t :| t in tiles && Playable(t, leftBranch, rightBranch);
      ValidTilesMembership(tiles, leftBranch, rightBranch, t);
    }
  }

  /** `findIndex(t => t.id === tileId)`: the first position holding that id, or -1. */
  function FirstIndexOf(tiles: seq<Domino>, tileId: int): (i: int)
    ensures -1 <= i < |tiles|
    ensures 0 <= i ==> tiles[i].id == tileId
    ensures forall k :: 0 <= k < |tiles| && (i < 0 || k < i) ==> tiles[k].id != tileId
  {
    if tiles == [] then -1
    else if tiles[0].id == tileId then 0
    else
      var j := FirstIndexOf(tiles[1..], tileId);
      if j < 0 then -1 else j + 1
  }

  class PlayerHand {
    var tiles: seq<Domino>
    var score: int
    const playerType: PlayerType
    const position: PlayerPosition
    const name: string

    /** A new hand holds no tiles and has score 0. */
    constructor (playerType: PlayerType, position: PlayerPosition, name: string)
      ensures tiles == [] && score == 0
      ensures this.playerType == playerType && this.position == position && this.name == name
    {
      this.tiles := [];
      this.score := 0;
      this.playerType := playerType;
      this.position := position;
      this.name := name;
    }

    /** `push`: the tile goes to the end, earlier tiles stay where they were. */
    method AddTile(tile: Domino)
      modifies this`tiles
      ensures tiles == old(tiles) + [tile]
    {
      tiles := tiles + [tile];
    }

    /** `splice` at the first tile with that id; an absent id changes nothing. */
    method RemoveTile(tileId: int) returns (removed: Option<Domino>)
      modifies this`tiles
      ensures FirstIndexOf(old(tiles), tileId) < 0 ==> removed == None && tiles == old(tiles)
      ensures FirstIndexOf(old(tiles), tileId) >= 0 ==>
                var i := FirstIndexOf(old(tiles), tileId);
                removed == Some(old(tiles)[i]) && removed.value.id == tileId
                && tiles == old(tiles)[..i] + old(tiles)[i + 1..]
                && |tiles| == |old(tiles)| - 1
    {
      var index := FirstIndexOf(tiles, tileId);
      if index == -1 {
        return None;
      }
      removed := Some(tiles[index]);
      tiles := tiles[..index] + tiles[index + 1..];
    }

    function GetValidTiles(leftBranch: int, rightBranch: int): (r: seq<Domino>)
      reads this
      ensures forall t :: t in r <==> t in tiles && Playable(t, leftBranch, rightBranch)
    {
      forall t | true ensures t in ValidTilesOf(tiles, leftBranch, rightBranch) <==> t in tiles && Playable(t, leftBranch, rightBranch) {
        ValidTilesMembership(tiles, leftBranch, rightBranch, t);
      }
      ValidTilesOf(tiles, leftBranch, rightBranch)
    }

    predicate HasValidMoves(leftBranch: int, rightBranch: int)
      reads this
      ensures HasValidMoves(leftBranch, rightBranch) <==> exists t :: t in tiles && Playable(t, leftBranch, rightBranch)
    {
      ValidTilesEmptyIff(tiles, leftBranch, rightBranch);
      |GetValidTiles(leftBranch, rightBranch)| > 0
    }

    predicate IsEmpty()
      reads this
      ensures IsEmpty() <==> tiles == []
    {
      |tiles| == 0
    }

    function ToJson(): (data: PlayerHandData)
      reads this
      ensures data.tiles == ToJsonAll(tiles) && data.score == score
      ensures data.playerType == playerType && data.position == position && data.name == name
    {
      PlayerHandData(ToJsonAll(tiles), score, playerType, position, name)
    }

    /** `fromJSON`: the record's tiles and score on a new hand of the record's seat. */
    constructor FromJson(data: PlayerHandData)
      ensures ToJson() == data
      ensures tiles == FromJsonAll(data.tiles)
    {
      this.playerType := data.playerType;
      this.position := data.position;
      this.name := data.name;
      this.tiles := FromJsonAll(data.tiles);
      this.score := data.score;
      new;
      JsonAllRoundTripData(data.tiles);
    }
  }

  /** `fromJSON(toJSON(h))` reproduces every field of the hand. */
  method JsonRoundTrip(h: PlayerHand) returns (copy: PlayerHand)
    ensures fresh(copy)
    ensures copy.tiles == h.tiles && copy.score == h.score
    ensures copy.playerType == h.playerType && copy.position == h.position && copy.name == h.name
  {
    copy := new PlayerHand.FromJson(h.ToJson());
    JsonAllRoundTrip(h.tiles);
  }
}
