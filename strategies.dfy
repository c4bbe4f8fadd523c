/** The computer players' move policies (src/ai/AIStrategy.ts). A `TileChoice` has the same
    two fields as a `MatchResult`, so both are `MatchResult` here; `null` is `None`.
    `Math.random()` is the parameter `roll`, a real in [0, 1); each policy draws it at most once. */
module Strategies {
  import opened Wrappers
  import opened Dominoes
  import opened Hands
  import opened Boards
  import opened Slots
  import opened Games

  /** `list[Math.floor(Math.random() * list.length)]`. */
  function PickIndex(roll: real, n: int): (i: int)
    requires n > 0 && 0.0 <= roll < 1.0
    ensures 0 <= i < n
  {
    RollScalesBelow(roll, n);
    (roll * (n as real)).Floor
  }

  lemma RollScalesBelow(roll: real, n: int)
    requires n > 0 && 0.0 <= roll < 1.0
    ensures 0.0 <= roll * (n as real) < n as real
  {
    assert (1.0 - roll) * (n as real) > 0.0;
  }

  /** Every index of a list is drawn by some roll: the draw never skips an entry. */
  lemma EveryIndexReachable(n: int, i: int)
    requires 0 <= i < n
    ensures 0.0 <= (i as real) / (n as real) < 1.0
    ensures PickIndex((i as real) / (n as real), n) == i
  {
    var roll := (i as real) / (n as real);
    assert roll * (n as real) == i as real;
  }

  function Pick(choices: seq<MatchResult>, roll: real): (c: MatchResult)
    requires |choices| > 0 && 0.0 <= roll < 1.0
    ensures c in choices
  {
    choices[PickIndex(roll, |choices|)]
  }

  // ----- separateTiles -----

  /** The open end the board would show on the chosen branch after this match. */
  function NewOpenEnd(m: MatchResult, leftBranch: int, rightBranch: int): (e: int)
    ensures e == m.tile.topIndex || e == m.tile.bottomIndex
  {
    OpenEnd(m.tile, BranchValue(m.branch, leftBranch, rightBranch))
  }

  /** `hand.some(t => t.id !== tile.id && (t.topIndex === end || t.bottomIndex === end))`. */
  predicate HasOtherTileOn(hand: seq<Domino>, tile: Domino, end: int) {
    hand != [] && ((hand[0].id != tile.id && Touches(hand[0], end)) || HasOtherTileOn(hand[1..], tile, end))
  }

  /** The scan finds a tile exactly when the hand holds one of a different id showing `end`. */
  lemma {:induction false} HasOtherTileOnIff(hand: seq<Domino>, tile: Domino, end: int)
    ensures HasOtherTileOn(hand, tile, end)
            <==> exists k :: 0 <= k < |hand| && hand[k].id != tile.id && Touches(hand[k], end)
  {
    if hand != [] {
      HasOtherTileOnIff(hand[1..], tile, end);
      if HasOtherTileOn(hand[1..], tile, end) {
        var k :| 0 <= k < |hand[1..]| && hand[1..][k].id != tile.id && Touches(hand[1..][k], end);
        assert hand[k + 1] == hand[1..][k];
      }
      if exists k :: 0 <= k < |hand| && hand[k].id != tile.id && Touches(hand[k], end) {
        var k :| 0 <= k < |hand| && hand[k].id != tile.id && Touches(hand[k], end);
        if k > 0 {
          assert hand[1..][k - 1] == hand[k];
        }
      }
    }
  }

  /** Good: the target hand holds a tile of a different id showing the new open end. */
  predicate IsGoodMatch(m: MatchResult, leftBranch: int, rightBranch: int, target: seq<Domino>) {
    HasOtherTileOn(target, m.tile, NewOpenEnd(m, leftBranch, rightBranch))
  }

  /** The `good` list: the good matches in input order. */
  function GoodOf(ms: seq<MatchResult>, leftBranch: int, rightBranch: int, target: seq<Domino>): (g: seq<MatchResult>)
    ensures |g| <= |ms|
    decreases |ms|
  {
    if ms == [] then []
    else
      var last := ms[|ms| - 1];
      GoodOf(ms[..|ms| - 1], leftBranch, rightBranch, target)
      + (if IsGoodMatch(last, leftBranch, rightBranch, target) then [last] else [])
  }

  /** The `bad` list: the remaining matches in input order. */
  function BadOf(ms: seq<MatchResult>, leftBranch: int, rightBranch: int, target: seq<Domino>): (b: seq<MatchResult>)
    ensures |b| <= |ms|
    decreases |ms|
  {
    if ms == [] then []
    else
      var last := ms[|ms| - 1];
      BadOf(ms[..|ms| - 1], leftBranch, rightBranch, target)
      + (if IsGoodMatch(last, leftBranch, rightBranch, target) then [] else [last])
  }

  /** The loop of `separateTiles`, classifying against seat `targetPlayerIndex`'s hand. */
  method SeparateTiles(matchingTiles: seq<MatchResult>, gameState: GameState, targetPlayerIndex: int)
    returns (good: seq<MatchResult>, bad: seq<MatchResult>)
    requires 0 <= targetPlayerIndex < |gameState.players|
    ensures good == GoodOf(matchingTiles, gameState.board.leftBranchNum, gameState.board.rightBranchNum,
                           gameState.players[targetPlayerIndex].tiles)
    ensures bad == BadOf(matchingTiles, gameState.board.leftBranchNum, gameState.board.rightBranchNum,
                         gameState.players[targetPlayerIndex].tiles)
  {
    var targetHand := gameState.players[targetPlayerIndex].tiles;
    var l := gameState.board.leftBranchNum;
    var r := gameState.board.rightBranchNum;
    good := [];
    bad := [];
    for i := 0 to |matchingTiles|
      invariant good == GoodOf(matchingTiles[..i], l, r, targetHand)
      invariant bad == BadOf(matchingTiles[..i], l, r, targetHand)
    {
      var m := matchingTiles[i];
      assert matchingTiles[..i + 1][..i] == matchingTiles[..i];
      var targetHasMatch := HasOtherTileOn(targetHand, m.tile, NewOpenEnd(m, l, r));
      if targetHasMatch {
        good := good + [m];
      } else {
        bad := bad + [m];
      }
    }
    assert matchingTiles[..|matchingTiles|] == matchingTiles;
  }

  /** Each match lands in exactly one list: together they hold the input matches, counted
      with multiplicity. */
  lemma {:induction false} SeparatePartition(ms: seq<MatchResult>, leftBranch: int, rightBranch: int, target: seq<Domino>)
    ensures multiset(GoodOf(ms, leftBranch, rightBranch, target)) + multiset(BadOf(ms, leftBranch, rightBranch, target))
            == multiset(ms)
    ensures |GoodOf(ms, leftBranch, rightBranch, target)| + |BadOf(ms, leftBranch, rightBranch, target)| == |ms|
    decreases |ms|
  {
    if ms != [] {
      var init, last := ms[..|ms| - 1], ms[|ms| - 1];
      SeparatePartition(init, leftBranch, rightBranch, target);
      var g0, b0 := GoodOf(init, leftBranch, rightBranch, target), BadOf(init, leftBranch, rightBranch, target);
      assert ms == init + [last];
      assert multiset(ms) == multiset(init) + multiset{last};
      if IsGoodMatch(last, leftBranch, rightBranch, target) {
        assert GoodOf(ms, leftBranch, rightBranch, target) == g0 + [last];
        assert BadOf(ms, leftBranch, rightBranch, target) == b0;
        assert multiset(g0 + [last]) == multiset(g0) + multiset{last};
      } else {
        assert GoodOf(ms, leftBranch, rightBranch, target) == g0;
        assert BadOf(ms, leftBranch, rightBranch, target) == b0 + [last];
        assert multiset(b0 + [last]) == multiset(b0) + multiset{last};
      }
    }
  }

  /** `good` holds exactly the good matches and `bad` exactly the others. */
  lemma {:induction false} SeparateMembership(ms: seq<MatchResult>, leftBranch: int, rightBranch: int, target: seq<Domino>, m: MatchResult)
    ensures m in GoodOf(ms, leftBranch, rightBranch, target) <==> m in ms && IsGoodMatch(m, leftBranch, rightBranch, target)
    ensures m in BadOf(ms, leftBranch, rightBranch, target) <==> m in ms && !IsGoodMatch(m, leftBranch, rightBranch, target)
    decreases |ms|
  {
    if ms != [] {
      var init := ms[..|ms| - 1];
      SeparateMembership(init, leftBranch, rightBranch, target, m);
      assert ms == init + [ms[|ms| - 1]];
    }
  }

  /** Classification keeps input order: classifying a concatenation concatenates the
      classifications of its parts. */
  lemma {:induction false} SeparateKeepsOrder(a: seq<MatchResult>, b: seq<MatchResult>, leftBranch: int, rightBranch: int, target: seq<Domino>)
    ensures GoodOf(a + b, leftBranch, rightBranch, target) == GoodOf(a, leftBranch, rightBranch, target) + GoodOf(b, leftBranch, rightBranch, target)
    ensures BadOf(a + b, leftBranch, rightBranch, target) == BadOf(a, leftBranch, rightBranch, target) + BadOf(b, leftBranch, rightBranch, target)
  {
    GoodOfAppend(a, b, leftBranch, rightBranch, target);
    BadOfAppend(a, b, leftBranch, rightBranch, target);
  }

  /** The good half of `SeparateKeepsOrder`. */
  lemma {:induction false} GoodOfAppend(a: seq<MatchResult>, b: seq<MatchResult>, leftBranch: int, rightBranch: int, target: seq<Domino>)
    ensures GoodOf(a + b, leftBranch, rightBranch, target) == GoodOf(a, leftBranch, rightBranch, target) + GoodOf(b, leftBranch, rightBranch, target)
    decreases |b|
  {
    if b == [] {
      assert a + b == a;
    } else {
      var initB, last := b[..|b| - 1], b[|b| - 1];
      GoodOfAppend(a, initB, leftBranch, rightBranch, target);
      var ab := a + b;
      assert ab[..|ab| - 1] == a + initB;
      assert ab[|ab| - 1] == last;
      var extra := if IsGoodMatch(last, leftBranch, rightBranch, target) then [last] else [];
      assert GoodOf(ab, leftBranch, rightBranch, target) == GoodOf(a + initB, leftBranch, rightBranch, target) + extra;
      assert GoodOf(b, leftBranch, rightBranch, target) == GoodOf(initB, leftBranch, rightBranch, target) + extra;
    }
  }

  /** The bad half of `SeparateKeepsOrder`. */
  lemma {:induction false} BadOfAppend(a: seq<MatchResult>, b: seq<MatchResult>, leftBranch: int, rightBranch: int, target: seq<Domino>)
    ensures BadOf(a + b, leftBranch, rightBranch, target) == BadOf(a, leftBranch, rightBranch, target) + BadOf(b, leftBranch, rightBranch, target)
    decreases |b|
  {
    if b == [] {
      assert a + b == a;
    } else {
      var initB, last := b[..|b| - 1], b[|b| - 1];
      BadOfAppend(a, initB, leftBranch, rightBranch, target);
      var ab := a + b;
      assert ab[..|ab| - 1] == a + initB;
      assert ab[|ab| - 1] == last;
      var extra := if IsGoodMatch(last, leftBranch, rightBranch, target) then [] else [last];
      assert BadOf(ab, leftBranch, rightBranch, target) == BadOf(a + initB, leftBranch, rightBranch, target) + extra;
      assert BadOf(b, leftBranch, rightBranch, target) == BadOf(initB, leftBranch, rightBranch, target) + extra;
    }
  }

  /** `good.filter(c => !c.tile.isDouble)`, in order. */
  function NonDoublesOf(cs: seq<MatchResult>): (r: seq<MatchResult>)
    ensures |r| <= |cs|
    ensures forall c :: c in r <==> c in cs && !IsDouble(c.tile)
  {
    if cs == [] then []
    else (if IsDouble(cs[0].tile) then [] else [cs[0]]) + NonDoublesOf(cs[1..])
  }

  // ----- the three policies -----

  /** `RandomStrategy.selectTile`. */
  function RandomSelectTile(matchingTiles: seq<MatchResult>, roll: real): (choice: Option<MatchResult>)
    requires 0.0 <= roll < 1.0
    ensures choice.None? <==> |matchingTiles| == 0
    ensures choice.Some? ==> choice.value in matchingTiles
  {
    if |matchingTiles| == 0 then None else Some(Pick(matchingTiles, roll))
  }

  /** `HardStrategy.selectTile`: block the human when the next seat is the human's,
      otherwise feed the next seat; fall back to any match. */
  function HardSelectTile(gameState: GameState, playerIndex: int, matchingTiles: seq<MatchResult>, roll: real): (choice: Option<MatchResult>)
    reads gameState, gameState.players, gameState.board
    requires 0.0 <= roll < 1.0
    requires |matchingTiles| > 0 ==> |gameState.players| > 0 && playerIndex >= -1
    ensures choice.None? <==> |matchingTiles| == 0
  {
    if |matchingTiles| == 0 then None
    else
      var next := NextSeat(playerIndex, |gameState.players|);
      var l := gameState.board.leftBranchNum;
      var r := gameState.board.rightBranchNum;
      var target := gameState.players[next].tiles;
      var good := GoodOf(matchingTiles, l, r, target);
      var bad := BadOf(matchingTiles, l, r, target);
      if next == 0 && |bad| > 0 then Some(Pick(bad, roll))
      else if next != 0 && |good| > 0 then Some(Pick(good, roll))
      else Some(Pick(matchingTiles, roll))
  }

  /** Would this match leave the human with no tile for the new end nor for the other branch? */
  predicate CausesPass(m: MatchResult, leftBranch: int, rightBranch: int, human: seq<Domino>) {
    var newEnd := NewOpenEnd(m, leftBranch, rightBranch);
    var other := BranchValue(OtherBranch(m.branch), leftBranch, rightBranch);
    !(exists k :: 0 <= k < |human| && (Touches(human[k], newEnd) || Touches(human[k], other)))
  }

  /** `EasyStrategy.selectTile`: classify against the human (seat 0); prefer a non-double
      good match, then any good match; pass voluntarily when every move would make the
      human pass but the human can play now; otherwise any match. */
  function EasySelectTile(gameState: GameState, matchingTiles: seq<MatchResult>, roll: real): (choice: Option<MatchResult>)
    reads gameState, gameState.players, gameState.board
    requires 0.0 <= roll < 1.0
    requires |matchingTiles| > 0 ==> |gameState.players| > 0
    ensures |matchingTiles| == 0 ==> choice.None?
  {
    if |matchingTiles| == 0 then None
    else
      var l := gameState.board.leftBranchNum;
      var r := gameState.board.rightBranchNum;
      var human := gameState.players[0];
      var good := GoodOf(matchingTiles, l, r, human.tiles);
      var nonDoubleGood := NonDoublesOf(good);
      if |nonDoubleGood| > 0 then Some(Pick(nonDoubleGood, roll))
      else if |good| > 0 then Some(Pick(good, roll))
      else if (forall i :: 0 <= i < |matchingTiles| ==> CausesPass(matchingTiles[i], l, r, human.tiles))
              && human.HasValidMoves(l, r) then None
      else Some(Pick(matchingTiles, roll))
  }

  /** A Hard choice is always one of the offered matches. */
  lemma HardChoiceIsMatch(gameState: GameState, playerIndex: int, matchingTiles: seq<MatchResult>, roll: real)
    requires 0.0 <= roll < 1.0
    requires |matchingTiles| > 0 && |gameState.players| > 0 && playerIndex >= -1
    ensures HardSelectTile(gameState, playerIndex, matchingTiles, roll).Some?
    ensures HardSelectTile(gameState, playerIndex, matchingTiles, roll).value in matchingTiles
  {
    var next := NextSeat(playerIndex, |gameState.players|);
    var c := HardSelectTile(gameState, playerIndex, matchingTiles, roll).value;
    SeparateMembership(matchingTiles, gameState.board.leftBranchNum, gameState.board.rightBranchNum,
                       gameState.players[next].tiles, c);
  }

  /** Before the human's seat, Hard plays a match that leaves the human nothing on the new
      end, whenever such a match exists. */
  lemma HardBlocksHuman(gameState: GameState, playerIndex: int, matchingTiles: seq<MatchResult>, roll: real, m: MatchResult)
    requires 0.0 <= roll < 1.0
    requires |gameState.players| > 0 && playerIndex >= -1
    requires NextSeat(playerIndex, |gameState.players|) == 0
    requires m in matchingTiles
    requires !IsGoodMatch(m, gameState.board.leftBranchNum, gameState.board.rightBranchNum, gameState.players[0].tiles)
    ensures HardSelectTile(gameState, playerIndex, matchingTiles, roll).Some?
    ensures var c := HardSelectTile(gameState, playerIndex, matchingTiles, roll).value;
            c in matchingTiles
            && !IsGoodMatch(c, gameState.board.leftBranchNum, gameState.board.rightBranchNum, gameState.players[0].tiles)
  {
    var l, r, target := gameState.board.leftBranchNum, gameState.board.rightBranchNum, gameState.players[0].tiles;
    SeparateMembership(matchingTiles, l, r, target, m);
    var c := HardSelectTile(gameState, playerIndex, matchingTiles, roll).value;
    SeparateMembership(matchingTiles, l, r, target, c);
  }

  /** Before any other seat, Hard plays a match the next seat can follow, whenever one exists. */
  lemma HardFeedsNextSeat(gameState: GameState, playerIndex: int, matchingTiles: seq<MatchResult>, roll: real, m: MatchResult)
    requires 0.0 <= roll < 1.0
    requires |gameState.players| > 0 && playerIndex >= -1
    requires NextSeat(playerIndex, |gameState.players|) != 0
    requires m in matchingTiles
    requires IsGoodMatch(m, gameState.board.leftBranchNum, gameState.board.rightBranchNum,
                         gameState.players[NextSeat(playerIndex, |gameState.players|)].tiles)
    ensures HardSelectTile(gameState, playerIndex, matchingTiles, roll).Some?
    ensures var c := HardSelectTile(gameState, playerIndex, matchingTiles, roll).value;
            c in matchingTiles
            && IsGoodMatch(c, gameState.board.leftBranchNum, gameState.board.rightBranchNum,
                           gameState.players[NextSeat(playerIndex, |gameState.players|)].tiles)
  {
    var next := NextSeat(playerIndex, |gameState.players|);
    var l, r, target := gameState.board.leftBranchNum, gameState.board.rightBranchNum, gameState.players[next].tiles;
    SeparateMembership(matchingTiles, l, r, target, m);
    var c := HardSelectTile(gameState, playerIndex, matchingTiles, roll).value;
    SeparateMembership(matchingTiles, l, r, target, c);
  }

  /** An Easy choice, when there is one, is one of the offered matches. */
  lemma EasyChoiceIsMatch(gameState: GameState, matchingTiles: seq<MatchResult>, roll: real)
    requires 0.0 <= roll < 1.0
    requires |matchingTiles| > 0 ==> |gameState.players| > 0
    ensures var c := EasySelectTile(gameState, matchingTiles, roll);
            c.Some? ==> c.value in matchingTiles
  {
    var c := EasySelectTile(gameState, matchingTiles, roll);
    if c.Some? {
      SeparateMembership(matchingTiles, gameState.board.leftBranchNum, gameState.board.rightBranchNum,
                         gameState.players[0].tiles, c.value);
    }
  }

  /** Easy plays a non-double match the human can follow whenever one exists. */
  lemma EasyPrefersNonDoubleGood(gameState: GameState, matchingTiles: seq<MatchResult>, roll: real, m: MatchResult)
    requires 0.0 <= roll < 1.0
    requires |gameState.players| > 0
    requires m in matchingTiles && !IsDouble(m.tile)
    requires IsGoodMatch(m, gameState.board.leftBranchNum, gameState.board.rightBranchNum, gameState.players[0].tiles)
    ensures EasySelectTile(gameState, matchingTiles, roll).Some?
    ensures var c := EasySelectTile(gameState, matchingTiles, roll).value;
            c in matchingTiles && !IsDouble(c.tile)
            && IsGoodMatch(c, gameState.board.leftBranchNum, gameState.board.rightBranchNum, gameState.players[0].tiles)
  {
    var l, r, human := gameState.board.leftBranchNum, gameState.board.rightBranchNum, gameState.players[0].tiles;
    SeparateMembership(matchingTiles, l, r, human, m);
    assert m in NonDoublesOf(GoodOf(matchingTiles, l, r, human));
    var c := EasySelectTile(gameState, matchingTiles, roll).value;
    SeparateMembership(matchingTiles, l, r, human, c);
  }

  /** Easy plays a match the human can follow whenever one exists. */
  lemma EasyPrefersGood(gameState: GameState, matchingTiles: seq<MatchResult>, roll: real, m: MatchResult)
    requires 0.0 <= roll < 1.0
    requires |gameState.players| > 0
    requires m in matchingTiles
    requires IsGoodMatch(m, gameState.board.leftBranchNum, gameState.board.rightBranchNum, gameState.players[0].tiles)
    ensures EasySelectTile(gameState, matchingTiles, roll).Some?
    ensures var c := EasySelectTile(gameState, matchingTiles, roll).value;
            c in matchingTiles
            && IsGoodMatch(c, gameState.board.leftBranchNum, gameState.board.rightBranchNum, gameState.players[0].tiles)
  {
    var l, r, human := gameState.board.leftBranchNum, gameState.board.rightBranchNum, gameState.players[0].tiles;
    SeparateMembership(matchingTiles, l, r, human, m);
    var c := EasySelectTile(gameState, matchingTiles, roll).value;
    SeparateMembership(matchingTiles, l, r, human, c);
  }

  /** Easy passes exactly when there is nothing to play, or when no match is good, every
      match would leave the human stuck, and the human can play on the current board. */
  lemma EasyPassIff(gameState: GameState, matchingTiles: seq<MatchResult>, roll: real)
    requires 0.0 <= roll < 1.0
    requires |gameState.players| > 0
    ensures var l, r, human := gameState.board.leftBranchNum, gameState.board.rightBranchNum, gameState.players[0];
            EasySelectTile(gameState, matchingTiles, roll).None?
            <==> |matchingTiles| == 0
                 || ((forall m :: m in matchingTiles ==> !IsGoodMatch(m, l, r, human.tiles))
                     && (forall m :: m in matchingTiles ==> CausesPass(m, l, r, human.tiles))
                     && (exists t :: t in human.tiles && Playable(t, l, r)))
  {
    var l, r, human := gameState.board.leftBranchNum, gameState.board.rightBranchNum, gameState.players[0];
    var good := GoodOf(matchingTiles, l, r, human.tiles);
    forall m | true
      ensures m in good <==> m in matchingTiles && IsGoodMatch(m, l, r, human.tiles)
    {
      SeparateMembership(matchingTiles, l, r, human.tiles, m);
    }
    if |good| > 0 {
      assert good[0] in good;
    }
  }

  // ----- createStrategy -----

  datatype Strategy = Easy | Hard | Random

  /** `createStrategy`: difficulty 0 is Easy, 2 is Hard, anything else Random. */
  function CreateStrategy(difficulty: int): (s: Strategy)
    ensures s == Easy <==> difficulty == 0
    ensures s == Hard <==> difficulty == 2
    ensures s == Random <==> difficulty != 0 && difficulty != 2
  {
    if difficulty == 0 then Easy else if difficulty == 2 then Hard else Random
  }

  /** `strategy.selectTile(gameState, playerIndex, matchingTiles)`. */
  function SelectTile(s: Strategy, gameState: GameState, playerIndex: int, matchingTiles: seq<MatchResult>, roll: real): (choice: Option<MatchResult>)
    reads gameState, gameState.players, gameState.board
    requires 0.0 <= roll < 1.0
    requires |matchingTiles| > 0 ==> |gameState.players| > 0 && playerIndex >= -1
    ensures |matchingTiles| == 0 ==> choice.None?
    ensures s != Easy ==> (choice.None? <==> |matchingTiles| == 0)
  {
    match s
    case Easy => EasySelectTile(gameState, matchingTiles, roll)
    case Hard => HardSelectTile(gameState, playerIndex, matchingTiles, roll)
    case Random => RandomSelectTile(matchingTiles, roll)
  }

  /** Whatever the policy, a choice is one of the offered (tile, branch) matches. */
  lemma ChoiceIsMatch(s: Strategy, gameState: GameState, playerIndex: int, matchingTiles: seq<MatchResult>, roll: real)
    requires 0.0 <= roll < 1.0
    requires |matchingTiles| > 0 ==> |gameState.players| > 0 && playerIndex >= -1
    ensures var c := SelectTile(s, gameState, playerIndex, matchingTiles, roll);
            c.Some? ==> c.value in matchingTiles
  {
    match s
    case Easy => EasyChoiceIsMatch(gameState, matchingTiles, roll);
    case Hard => if |matchingTiles| > 0 { HardChoiceIsMatch(gameState, playerIndex, matchingTiles, roll); }
    case Random =>
  }
}
