/** The game-state side of the table scene (src/scenes/GameScene.ts): the Fish walk, the
    two pass handlers, committing a placement, and the decisions taken at the start of a
    human or computer turn. Sprites, tweens, timers, sounds and messages are not modelled;
    `endGame(w)` is the `gameOver` write plus the returned outcome `GameEnded(w)`. */
module Scenes {
  import opened Wrappers
  import opened Dominoes
  import opened TileSets
  import opened Hands
  import opened Boards
  import opened Slots
  import opened Games
  import opened Strategies

  /** What a command leaves behind: the game went on, it ended (`-1` is Fish), or the
      command was ignored because the game was already over. */
  datatype Outcome = Continue | GameEnded(winner: int) | Ignored

  /** The tiles of every seat, in seat order. */
  function TilesOf(players: seq<PlayerHand>): (r: seq<seq<Domino>>)
    reads players
    ensures |r| == |players|
    ensures forall i :: 0 <= i < |players| ==> r[i] == players[i].tiles
  {
    if players == [] then [] else [players[0].tiles] + TilesOf(players[1..])
  }

  /** Score changes leave every seat's tiles, and so `TilesOf`, as they were. */
  twostate lemma TilesUnchanged(players: seq<PlayerHand>)
    requires forall i :: 0 <= i < |players| ==> players[i].tiles == old(players[i].tiles)
    ensures TilesOf(players) == old(TilesOf(players))
  {
    assert |TilesOf(players)| == |old(TilesOf(players))|;
    forall i | 0 <= i < |players| ensures TilesOf(players)[i] == old(TilesOf(players))[i] {
    }
  }

  /** A seat is stuck when no tile of its hand shows either open value. */
  predicate Stuck(hand: seq<Domino>, leftBranch: int, rightBranch: int) {
    !exists t :: t in hand && Playable(t, leftBranch, rightBranch)
  }

  /** The seat k places after `turn` at the four-seat table. */
  function SeatAfter(turn: int, k: int): (s: int)
    ensures 0 <= s < 4
  {
    (turn + k) % 4
  }

  /** How many seats lie after `turn`, up to and including `last`. */
  function SeatsUpTo(turn: int, last: int): (d: int)
    requires 0 <= turn < 4 && 0 <= last < 4
    ensures 0 <= d < 4 && (d == 0 <==> turn == last)
    ensures SeatAfter(turn, d) == last
  {
    (last - turn) % 4
  }

  /** Fish: the seat on turn is not the last placer, and every seat after it up to and
      including the last placer is stuck. */
  predicate IsFishPosition(hands: seq<seq<Domino>>, leftBranch: int, rightBranch: int, turn: int, last: int)
    requires |hands| == 4 && 0 <= turn < 4 && 0 <= last < 4
  {
    turn != last
    && forall k :: 1 <= k <= SeatsUpTo(turn, last) ==> Stuck(hands[SeatAfter(turn, k)], leftBranch, rightBranch)
  }

  /** Walking from `turn`, the last placer is met first after exactly `SeatsUpTo` steps. */
  lemma SeatAfterReachesLast(turn: int, last: int, k: int)
    requires 0 <= turn < 4 && 0 <= last < 4 && turn != last
    requires 1 <= k <= SeatsUpTo(turn, last)
    ensures SeatAfter(turn, k) == last <==> k == SeatsUpTo(turn, last)
  {
  }

  /** One step of the walk, `(nextTurn + 1) % 4`, is one more seat after `turn`. */
  lemma NextSeatAfter(turn: int, k: int)
    requires 0 <= turn < 4 && 0 <= k
    ensures NextSeat(SeatAfter(turn, k), 4) == SeatAfter(turn, k + 1)
  {
  }

  /** A seat before the last placer that can play rules out Fish. */
  lemma NotFishAtPlayableSeat(hands: seq<seq<Domino>>, leftBranch: int, rightBranch: int, turn: int, last: int, k: int)
    requires |hands| == 4 && 0 <= turn < 4 && 0 <= last < 4
    requires 1 <= k <= SeatsUpTo(turn, last)
    requires !Stuck(hands[SeatAfter(turn, k)], leftBranch, rightBranch)
    ensures !IsFishPosition(hands, leftBranch, rightBranch, turn, last)
  {
  }

  /** With every seat before the last placer stuck, Fish is decided by the last placer. */
  lemma FishDecidedByLastPlacer(hands: seq<seq<Domino>>, leftBranch: int, rightBranch: int, turn: int, last: int)
    requires |hands| == 4 && 0 <= turn < 4 && 0 <= last < 4 && turn != last
    requires forall k :: 1 <= k < SeatsUpTo(turn, last) ==> Stuck(hands[SeatAfter(turn, k)], leftBranch, rightBranch)
    ensures IsFishPosition(hands, leftBranch, rightBranch, turn, last) <==> Stuck(hands[last], leftBranch, rightBranch)
  {
    var d := SeatsUpTo(turn, last);
    assert SeatAfter(turn, d) == last;
    if Stuck(hands[last], leftBranch, rightBranch) {
      forall k | 1 <= k <= d
        ensures Stuck(hands[SeatAfter(turn, k)], leftBranch, rightBranch)
      {
        if k == d {
          assert SeatAfter(turn, k) == last;
        }
      }
    }
  }

  /** One step of the walk past a stuck seat that is not the last placer: the last placer
      is still ahead, and every seat walked so far is stuck. */
  lemma WalkStep(hands: seq<seq<Domino>>, leftBranch: int, rightBranch: int, turn: int, last: int, visited: int)
    requires |hands| == 4 && 0 <= turn < 4 && 0 <= last < 4 && turn != last
    requires 1 <= visited <= SeatsUpTo(turn, last) && SeatAfter(turn, visited) != last
    requires forall k :: 1 <= k < visited ==> Stuck(hands[SeatAfter(turn, k)], leftBranch, rightBranch)
    requires Stuck(hands[SeatAfter(turn, visited)], leftBranch, rightBranch)
    ensures visited + 1 <= SeatsUpTo(turn, last)
    ensures NextSeat(SeatAfter(turn, visited), 4) == SeatAfter(turn, visited + 1)
    ensures forall k :: 1 <= k < visited + 1 ==> Stuck(hands[SeatAfter(turn, k)], leftBranch, rightBranch)
  {
    SeatAfterReachesLast(turn, last, visited);
    NextSeatAfter(turn, visited);
  }

  /** The walk has reached the last placer with every seat before it stuck: it took
      `SeatsUpTo` steps, and Fish is decided by the last placer's hand. */
  lemma WalkEnd(hands: seq<seq<Domino>>, leftBranch: int, rightBranch: int, turn: int, last: int, visited: int)
    requires |hands| == 4 && 0 <= turn < 4 && 0 <= last < 4 && turn != last
    requires 1 <= visited <= SeatsUpTo(turn, last) && SeatAfter(turn, visited) == last
    requires forall k :: 1 <= k < visited ==> Stuck(hands[SeatAfter(turn, k)], leftBranch, rightBranch)
    ensures visited == SeatsUpTo(turn, last)
    ensures IsFishPosition(hands, leftBranch, rightBranch, turn, last) <==> Stuck(hands[last], leftBranch, rightBranch)
  {
    SeatAfterReachesLast(turn, last, visited);
    FishDecidedByLastPlacer(hands, leftBranch, rightBranch, turn, last);
  }

  /** A valid game in which some seat has placed: the state every pass starts from. */
  ghost predicate FishReady(gameState: GameState)
    reads gameState
  {
    gameState.Valid() && gameState.lastActivePlayer >= 0
  }

  /** The walk of `checkFish`, which reads the game and changes nothing. `visited` counts
      the hands it inspected: none when the seat on turn placed last, otherwise the seats
      after it up to the first one that can play, or up to the last placer. */
  method FishWalk(gameState: GameState) returns (fish: bool, visited: int)
    requires |gameState.players| == 4
    requires 0 <= gameState.currentTurn < 4 && 0 <= gameState.lastActivePlayer < 4
    ensures fish <==> IsFishPosition(TilesOf(gameState.players), gameState.board.leftBranchNum,
                                     gameState.board.rightBranchNum, gameState.currentTurn, gameState.lastActivePlayer)
    ensures 0 <= visited <= SeatsUpTo(gameState.currentTurn, gameState.lastActivePlayer) <= 3
    ensures gameState.currentTurn == gameState.lastActivePlayer ==> visited == 0
    ensures !fish && visited > 0 ==>
              var hands := TilesOf(gameState.players);
              !Stuck(hands[SeatAfter(gameState.currentTurn, visited)], gameState.board.leftBranchNum, gameState.board.rightBranchNum)
              && forall k :: 1 <= k < visited ==>
                   Stuck(hands[SeatAfter(gameState.currentTurn, k)], gameState.board.leftBranchNum, gameState.board.rightBranchNum)
  {
    var turn, last := gameState.currentTurn, gameState.lastActivePlayer;
    var l, r := gameState.board.leftBranchNum, gameState.board.rightBranchNum;
    var hands := TilesOf(gameState.players);
    if last == turn {
      return false, 0;
    }
    var nextTurn := NextSeat(turn, 4);
    visited := 1;
    while nextTurn != last
      invariant 1 <= visited <= SeatsUpTo(turn, last)
      invariant nextTurn == SeatAfter(turn, visited)
      invariant forall k :: 1 <= k < visited ==> Stuck(hands[SeatAfter(turn, k)], l, r)
      decreases SeatsUpTo(turn, last) - visited
    {
      var nextPlayer := gameState.players[nextTurn];
      assert hands[nextTurn] == nextPlayer.tiles;
      if nextPlayer.HasValidMoves(l, r) {
        NotFishAtPlayableSeat(hands, l, r, turn, last, visited);
        return false, visited;
      }
      WalkStep(hands, l, r, turn, last, visited);
      nextTurn := NextSeat(nextTurn, 4);
      visited := visited + 1;
    }
    WalkEnd(hands, l, r, turn, last, visited);
    var lastPlayer := gameState.players[last];
    assert hands[last] == lastPlayer.tiles;
    fish := !lastPlayer.HasValidMoves(l, r);
  }

  /** The seat-0 controls `enablePlayerTurn` sets up: which hand tiles can be dragged
      and whether the pass button is enabled. */
  datatype PlayerControls = PlayerControls(draggable: seq<Domino>, passEnabled: bool)

  /** `validTiles.some(v => v.id === tile.id)`. */
  predicate SameIdIn(tile: Domino, tiles: seq<Domino>) {
    exists k :: 0 <= k < |tiles| && tiles[k].id == tile.id
  }

  function DraggableOf(hand: seq<Domino>, valid: seq<Domino>): (r: seq<Domino>)
    ensures forall t :: t in r <==> t in hand && SameIdIn(t, valid)
  {
    if hand == [] then []
    else (if SameIdIn(hand[0], valid) then [hand[0]] else []) + DraggableOf(hand[1..], valid)
  }

  /** `enablePlayerTurn`: on a fresh board every tile is draggable and passing is off;
      with no valid tile everything is locked and passing is on; otherwise the valid tiles
      (matched by id) are draggable and passing is off. */
  function HumanControls(board: BoardStateData, hand: seq<Domino>): (c: PlayerControls)
    ensures forall t :: t in c.draggable ==> t in hand
    ensures c.passEnabled ==> board.started && c.draggable == []
  {
    if !board.started then PlayerControls(hand, false)
    else
      var valid := ValidTilesOf(hand, board.leftBranchNum, board.rightBranchNum);
      if |valid| == 0 then PlayerControls([], true)
      else PlayerControls(DraggableOf(hand, valid), false)
  }

  /** The human may pass only on a started board and only with no tile for either end;
      on a fresh board every tile may be dragged. */
  lemma HumanPassGate(board: BoardStateData, hand: seq<Domino>)
    ensures HumanControls(board, hand).passEnabled <==> board.started && Stuck(hand, board.leftBranchNum, board.rightBranchNum)
    ensures !board.started ==> HumanControls(board, hand).draggable == hand
  {
    ValidTilesEmptyIff(hand, board.leftBranchNum, board.rightBranchNum);
    if board.started && !Stuck(hand, board.leftBranchNum, board.rightBranchNum) {
      var t :| t in hand && Playable(t, board.leftBranchNum, board.rightBranchNum);
      ValidTilesMembership(hand, board.leftBranchNum, board.rightBranchNum, t);
    }
  }

  /** Once started, every tile that shows an open value is draggable, and every draggable
      tile shares its id with one that does. */
  lemma HumanDraggableAreValid(board: BoardStateData, hand: seq<Domino>, t: Domino)
    requires board.started
    ensures t in hand && Playable(t, board.leftBranchNum, board.rightBranchNum) ==> t in HumanControls(board, hand).draggable
    ensures t in HumanControls(board, hand).draggable ==>
              exists v :: v in hand && Playable(v, board.leftBranchNum, board.rightBranchNum) && v.id == t.id
  {
    var l, r := board.leftBranchNum, board.rightBranchNum;
    var valid := ValidTilesOf(hand, l, r);
    ValidTilesMembership(hand, l, r, t);
    if t in hand && Playable(t, l, r) {
      var k :| 0 <= k < |valid| && valid[k] == t;
      assert SameIdIn(t, valid);
    }
    if t in HumanControls(board, hand).draggable {
      var k :| 0 <= k < |valid| && valid[k].id == t.id;
      ValidTilesMembership(hand, l, r, valid[k]);
    }
  }

  /** What the computer player does once its think time is over. */
  datatype AiAction = Idle | Play(choice: MatchResult) | Pass

  /** The decision part of `startAITurn`: nothing when the game is over or paused; on a
      fresh board a hand tile drawn by `roll` on 'right'; otherwise pass with no matching
      tile, else ask the difficulty's policy and pass when it declines. */
  function AiDecision(gameState: GameState, difficulty: int, paused: bool, roll: real): (a: AiAction)
    reads gameState, gameState.players, gameState.board
    requires 0.0 <= roll < 1.0
    requires 0 <= gameState.currentTurn < |gameState.players|
    requires !gameState.board.started ==> |gameState.players[gameState.currentTurn].tiles| > 0
    ensures a.Idle? <==> gameState.gameOver || paused
  {
    if gameState.gameOver || paused then Idle
    else
      var playerIndex := gameState.currentTurn;
      var player := gameState.players[playerIndex];
      var board := gameState.board;
      if !board.started then
        Play(MatchResult(player.tiles[PickIndex(roll, |player.tiles|)], Branch.Right))
      else
        var matchingTiles := MatchesOf(player.tiles, board.leftBranchNum, board.rightBranchNum);
        if |matchingTiles| == 0 then Pass
        else
          match SelectTile(CreateStrategy(difficulty), gameState, playerIndex, matchingTiles, roll)
          case Some(choice) => Play(choice)
          case None => Pass
  }

  /** On a fresh board the computer plays one of its own tiles on 'right'. */
  lemma AiFirstMove(gameState: GameState, difficulty: int, roll: real)
    requires 0.0 <= roll < 1.0
    requires 0 <= gameState.currentTurn < |gameState.players|
    requires !gameState.board.started && |gameState.players[gameState.currentTurn].tiles| > 0
    requires !gameState.gameOver
    ensures AiDecision(gameState, difficulty, false, roll).Play?
    ensures AiDecision(gameState, difficulty, false, roll).choice.branch == Branch.Right
    ensures AiDecision(gameState, difficulty, false, roll).choice.tile in gameState.players[gameState.currentTurn].tiles
  {
  }

  /** On a started board the computer passes exactly when it has no matching tile or the
      Easy policy declines; any tile it plays is one of its own and shows that branch's value. */
  lemma AiPassOrLegalPlay(gameState: GameState, difficulty: int, roll: real)
    requires 0.0 <= roll < 1.0
    requires 0 <= gameState.currentTurn < |gameState.players|
    requires gameState.board.started && !gameState.gameOver
    ensures var hand, l, r := gameState.players[gameState.currentTurn].tiles,
                              gameState.board.leftBranchNum, gameState.board.rightBranchNum;
            var matchingTiles := MatchesOf(hand, l, r);
            var a := AiDecision(gameState, difficulty, false, roll);
            (a.Pass? <==> |matchingTiles| == 0
                          || (difficulty == 0 && EasySelectTile(gameState, matchingTiles, roll).None?))
            && (a.Play? ==> a.choice.tile in hand && Touches(a.choice.tile, BranchValue(a.choice.branch, l, r)))
  {
    var turn := gameState.currentTurn;
    var hand, l, r := gameState.players[turn].tiles, gameState.board.leftBranchNum, gameState.board.rightBranchNum;
    var matchingTiles := MatchesOf(hand, l, r);
    var a := AiDecision(gameState, difficulty, false, roll);
    if |matchingTiles| > 0 {
      ChoiceIsMatch(CreateStrategy(difficulty), gameState, turn, matchingTiles, roll);
      if a.Play? {
        MatchesAreLegal(hand, l, r, a.choice);
      }
    }
  }

  /** The scene's hold on the game: the state, the slot helper built from its board,
      the difficulty chosen in the menu, and the pause flag. */
  class GameScene {
    const gameState: GameState
    const slotHelper: SlotHelper
    const difficulty: int
    var paused: bool

    /** `init` and the state half of `create`: a new game at this difficulty, which
        defaults to 1 when the menu passes none. */
    constructor (difficulty: int := 1)
      ensures this.difficulty == difficulty && !paused
      ensures fresh(gameState) && gameState.Valid() && gameState.difficulty == difficulty
      ensures gameState.tileConfig == DefaultTileConfig
      ensures gameState.currentTurn == 0 && gameState.lastActivePlayer == -1 && !gameState.gameOver
      ensures fresh(gameState.board) && gameState.board.ToJson() == InitialBoard
      ensures gameState.board.config == DefaultBoardConfig
      ensures forall i :: 0 <= i < 4 ==>
                fresh(gameState.players[i]) && gameState.players[i].tiles == [] && gameState.players[i].score == 0
      ensures gameState.players[0].playerType == Human && gameState.players[0].position == Bottom
      ensures forall i :: 1 <= i < 4 ==> gameState.players[i].playerType == Ai
      ensures gameState.players[1].position == PlayerPosition.Left && gameState.players[2].position == Top
      ensures gameState.players[3].position == PlayerPosition.Right
      ensures gameState.players[0].name == "You" && gameState.players[1].name == "Left AI"
      ensures gameState.players[2].name == "Top AI" && gameState.players[3].name == "Right AI"
      ensures slotHelper.sideLimit == gameState.board.config.sideLimit
    {
      this.difficulty := difficulty;
      this.paused := false;
      var state := new GameState(difficulty);
      this.gameState := state;
      this.slotHelper := new SlotHelper(state.board);
    }

    /** `checkFish`: on a Fish the game is over. */
    method CheckFish() returns (fish: bool)
      requires FishReady(gameState)
      modifies gameState`gameOver
      ensures fish <==> IsFishPosition(TilesOf(gameState.players), gameState.board.leftBranchNum,
                                       gameState.board.rightBranchNum, gameState.currentTurn, gameState.lastActivePlayer)
      ensures gameState.gameOver == (old(gameState.gameOver) || fish)
    {
      var visited;
      fish, visited := FishWalk(gameState);
      if fish {
        gameState.gameOver := true;
      }
    }

    /** `handleAIPass`: one point to the last placer, then either Fish ends the game or the
        turn moves to the next seat. Tiles, board and the last placer do not change. */
    method HandleAIPass(playerIndex: int) returns (outcome: Outcome)
      requires FishReady(gameState)
      modifies gameState, gameState.players
      ensures FishReady(gameState)
      ensures gameState.players == old(gameState.players) && gameState.board == old(gameState.board)
      ensures gameState.lastActivePlayer == old(gameState.lastActivePlayer)
      ensures gameState.difficulty == old(gameState.difficulty) && gameState.tileConfig == old(gameState.tileConfig)
      ensures TilesOf(gameState.players) == old(TilesOf(gameState.players))
      ensures gameState.players[gameState.lastActivePlayer].score == old(gameState.players[gameState.lastActivePlayer].score) + 1
      ensures forall i :: 0 <= i < 4 && i != gameState.lastActivePlayer ==>
                gameState.players[i].score == old(gameState.players[i].score)
      ensures var fish := IsFishPosition(TilesOf(gameState.players), gameState.board.leftBranchNum,
                                         gameState.board.rightBranchNum, old(gameState.currentTurn), gameState.lastActivePlayer);
              (fish ==> outcome == GameEnded(-1) && gameState.gameOver && gameState.currentTurn == old(gameState.currentTurn))
              && (!fish ==> outcome == Continue && gameState.gameOver == old(gameState.gameOver)
                            && gameState.currentTurn == NextSeat(old(gameState.currentTurn), 4))
    {
      var last := gameState.lastActivePlayer;
      if last >= 0 {
        var scorer := gameState.players[last];
        scorer.score := scorer.score + 1;
        assert forall i :: 0 <= i < 4 && i != last ==> gameState.players[i] != scorer;
      }
      assert forall i :: 0 <= i < 4 && i != last ==> gameState.players[i].score == old(gameState.players[i].score);
      TilesUnchanged(gameState.players);
      assert gameState.Valid();
      var fish := CheckFish();
      if fish {
        return GameEnded(-1);
      }
      gameState.AdvanceTurn();
      outcome := Continue;
    }

    /** `handlePass`: ignored once the game is over, otherwise the same as a computer pass. */
    method HandlePass() returns (outcome: Outcome)
      requires FishReady(gameState)
      modifies gameState, gameState.players
      ensures FishReady(gameState)
      ensures gameState.players == old(gameState.players) && gameState.board == old(gameState.board)
      ensures gameState.lastActivePlayer == old(gameState.lastActivePlayer)
      ensures gameState.difficulty == old(gameState.difficulty) && gameState.tileConfig == old(gameState.tileConfig)
      ensures TilesOf(gameState.players) == old(TilesOf(gameState.players))
      ensures old(gameState.gameOver) ==>
                outcome == Ignored && gameState.currentTurn == old(gameState.currentTurn) && gameState.gameOver
                && forall i :: 0 <= i < 4 ==> gameState.players[i].score == old(gameState.players[i].score)
      ensures !old(gameState.gameOver) ==>
                gameState.players[gameState.lastActivePlayer].score == old(gameState.players[gameState.lastActivePlayer].score) + 1
                && (forall i :: 0 <= i < 4 && i != gameState.lastActivePlayer ==>
                      gameState.players[i].score == old(gameState.players[i].score))
                && var fish := IsFishPosition(TilesOf(gameState.players), gameState.board.leftBranchNum,
                                              gameState.board.rightBranchNum, old(gameState.currentTurn), gameState.lastActivePlayer);
                   (fish ==> outcome == GameEnded(-1) && gameState.gameOver && gameState.currentTurn == old(gameState.currentTurn))
                   && (!fish ==> outcome == Continue && !gameState.gameOver
                                 && gameState.currentTurn == NextSeat(old(gameState.currentTurn), 4))
    {
      if gameState.gameOver {
        return Ignored;
      }
      outcome := HandleAIPass(gameState.currentTurn);
    }

    /** The board half of `finalizePlacement`: the open value, then the branch counters,
        then the placed record; nothing but the board changes. */
    method PlaceOnBoard(domino: Domino, branch: Branch, x: real, y: real, rotation: int)
      modifies gameState.board
      ensures var moved := Move(Occupy(old(gameState.board.ToJson()), domino, branch), domino, branch, slotHelper.sideLimit);
              gameState.board.ToJson()
              == moved.(placedTiles := moved.placedTiles + [PlacedTile(Dominoes.ToJson(domino), x, y, rotation, branch)])
    {
      var board := gameState.board;
      slotHelper.ConfirmOccupation(board, domino, branch);
      slotHelper.ConfirmMoving(board, domino, branch);
      board.AddPlacedTile(domino, x, y, rotation, branch);
    }

    /** `finalizePlacement`: commit the open value, then the branch counters, then the
        placed record; take the tile out of the placing seat's hand and make that seat the
        last placer. An emptied hand wins before the turn would advance. */
    method FinalizePlacement(domino: Domino, branch: Branch, x: real, y: real, rotation: int) returns (outcome: Outcome)
      requires 0 <= gameState.currentTurn < |gameState.players|
      modifies gameState, gameState.board, gameState.players[gameState.currentTurn]
      ensures gameState.players == old(gameState.players) && gameState.board == old(gameState.board)
      ensures gameState.difficulty == old(gameState.difficulty) && gameState.tileConfig == old(gameState.tileConfig)
      ensures old(gameState.Valid()) ==> gameState.Valid()
      ensures var moved := Move(Occupy(old(gameState.board.ToJson()), domino, branch), domino, branch, slotHelper.sideLimit);
              gameState.board.ToJson()
              == moved.(placedTiles := moved.placedTiles + [PlacedTile(Dominoes.ToJson(domino), x, y, rotation, branch)])
      ensures var seat := old(gameState.currentTurn);
              var before := old(gameState.players[seat].tiles);
              var i := FirstIndexOf(before, domino.id);
              gameState.lastActivePlayer == seat
              && gameState.players[seat].score == old(gameState.players[seat].score)
              && (i < 0 ==> gameState.players[seat].tiles == before)
              && (i >= 0 ==> gameState.players[seat].tiles == before[..i] + before[i + 1..])
      ensures gameState.players[old(gameState.currentTurn)].tiles == [] ==>
                outcome == GameEnded(old(gameState.currentTurn)) && gameState.gameOver
                && gameState.currentTurn == old(gameState.currentTurn)
      ensures gameState.players[old(gameState.currentTurn)].tiles != [] ==>
                outcome == Continue && gameState.gameOver == old(gameState.gameOver)
                && gameState.currentTurn == NextSeat(old(gameState.currentTurn), |gameState.players|)
    {
      PlaceOnBoard(domino, branch, x, y, rotation);
      var playerIndex := gameState.currentTurn;
      var player := gameState.players[playerIndex];
      var removed := player.RemoveTile(domino.id);
      gameState.lastActivePlayer := playerIndex;
      if player.IsEmpty() {
        gameState.gameOver := true;
        return GameEnded(playerIndex);
      }
      gameState.AdvanceTurn();
      outcome := Continue;
    }
  }
}
