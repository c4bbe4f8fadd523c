/** Turn order and the game snapshot (src/models/GameState.ts). */
module Games {
  import opened Dominoes
  import opened TileSets
  import opened Hands
  import opened Boards

  /** JavaScript's `%`: the remainder keeps the sign of the dividend, and agrees with
      Dafny's Euclidean `%` on non-negative dividends. */
  function JsRem(a: int, n: int): (r: int)
    requires n > 0
    ensures -n < r < n
    ensures a >= 0 ==> r >= 0 && r == a % n
    ensures a <= 0 ==> r <= 0
  {
    if a >= 0 then a % n else -((-a) % n)
  }

  /** Negating the dividend negates the remainder. */
  lemma JsRemOdd(a: int, n: int)
    requires n > 0
    ensures JsRem(-a, n) == -JsRem(a, n)
  {
  }

  /** The seat after `turn` at a table of n seats: `(turn + 1) % n`. */
  function NextSeat(turn: int, n: int): int
    requires n > 0
  {
    JsRem(turn + 1, n)
  }

  /** From any seat index of at least -1 the next seat is a real seat. */
  lemma NextSeatInRange(turn: int, n: int)
    requires n > 0 && -1 <= turn
    ensures 0 <= NextSeat(turn, n) < n
    ensures turn < n - 1 ==> NextSeat(turn, n) == turn + 1
    ensures turn == n - 1 ==> NextSeat(turn, n) == 0
  {
  }

  /** Four advances at a four-seat table return to the starting seat. */
  lemma FourAdvancesReturn(turn: int)
    requires 0 <= turn < 4
    ensures NextSeat(NextSeat(NextSeat(NextSeat(turn, 4), 4), 4), 4) == turn
  {
  }

  /** The plain record `toJSON` produces and `fromJSON` consumes. */
  datatype GameStateData = GameStateData(
    currentTurn: int,
    lastActivePlayer: int,
    gameOver: bool,
    difficulty: int,
    tileConfig: TileConfig,
    players: seq<PlayerHandData>,
    board: BoardStateData)

  function HandsToJson(hands: seq<PlayerHand>): (r: seq<PlayerHandData>)
    reads hands
    ensures |r| == |hands|
    ensures forall i :: 0 <= i < |hands| ==> r[i] == hands[i].ToJson()
  {
    if hands == [] then [] else [hands[0].ToJson()] + HandsToJson(hands[1..])
  }

  ghost predicate DistinctSeats(players: seq<PlayerHand>) {
    forall i, j :: 0 <= i < j < |players| ==> players[i] != players[j]
  }

  class GameState {
    var currentTurn: int
    var lastActivePlayer: int
    var gameOver: bool
    var difficulty: int
    var tileConfig: TileConfig
    var players: seq<PlayerHand>
    var board: BoardState

    /** The shape every game built by the constructor keeps: four distinct seats, a seat
        index on turn, and a last placer that is a seat or -1. */
    ghost predicate Valid()
      reads this
    {
      |players| == 4 && DistinctSeats(players)
      && 0 <= currentTurn < 4 && -1 <= lastActivePlayer < 4
    }

    /** Turn 0, nobody has placed, the game is running; a fresh board; the human at seat 0
        and three AIs at seats 1-3, all with empty hands. The tile config defaults to double-six. */
    constructor (difficulty: int, tileConfig: TileConfig := DefaultTileConfig)
      ensures Valid()
      ensures currentTurn == 0 && lastActivePlayer == -1 && !gameOver
      ensures this.difficulty == difficulty && this.tileConfig == tileConfig
      ensures fresh(board) && board.ToJson() == InitialBoard && board.config == DefaultBoardConfig
      ensures forall i :: 0 <= i < 4 ==> fresh(players[i]) && players[i].tiles == [] && players[i].score == 0
      ensures players[0].playerType == Human && players[0].position == Bottom && players[0].name == "You"
      ensures players[1].playerType == Ai && players[1].position == PlayerPosition.Left && players[1].name == "Left AI"
      ensures players[2].playerType == Ai && players[2].position == Top && players[2].name == "Top AI"
      ensures players[3].playerType == Ai && players[3].position == PlayerPosition.Right && players[3].name == "Right AI"
    {
      this.currentTurn := 0;
      this.lastActivePlayer := -1;
      this.gameOver := false;
      this.difficulty := difficulty;
      this.tileConfig := tileConfig;
      var b := new BoardState(NoOverrides);
      this.board := b;
      var p0 := new PlayerHand(Human, Bottom, "You");
      var p1 := new PlayerHand(Ai, PlayerPosition.Left, "Left AI");
      var p2 := new PlayerHand(Ai, Top, "Top AI");
      var p3 := new PlayerHand(Ai, PlayerPosition.Right, "Right AI");
      this.players := [p0, p1, p2, p3];
    }

    function CurrentPlayer(): (p: PlayerHand)
      reads this
      requires 0 <= currentTurn < |players|
      ensures p in players && p == players[currentTurn]
    {
      players[currentTurn]
    }

    function HumanPlayer(): (p: PlayerHand)
      reads this
      requires |players| > 0
      ensures p in players && p == players[0]
    {
      players[0]
    }

    predicate IsHumanTurn()
      reads this
      ensures IsHumanTurn() <==> currentTurn == 0
    {
      currentTurn == 0
    }

    /** `currentTurn = (currentTurn + 1) % players.length`; nothing else changes. */
    method AdvanceTurn()
      requires |players| > 0
      modifies this`currentTurn
      ensures currentTurn == NextSeat(old(currentTurn), |players|)
      ensures old(Valid()) ==> Valid()
    {
      currentTurn := JsRem(currentTurn + 1, |players|);
    }

    function ToJson(): (data: GameStateData)
      reads this, players, board
      ensures data.players == HandsToJson(players) && data.board == board.ToJson()
      ensures data.currentTurn == currentTurn && data.lastActivePlayer == lastActivePlayer
      ensures data.gameOver == gameOver && data.difficulty == difficulty && data.tileConfig == tileConfig
    {
      GameStateData(currentTurn, lastActivePlayer, gameOver, difficulty, tileConfig,
                    HandsToJson(players), board.ToJson())
    }

    /** `fromJSON`: a new game whose every field, seat and board come from the record. */
    constructor FromJson(data: GameStateData)
      ensures ToJson() == data
      ensures fresh(board) && DistinctSeats(players)
      ensures forall i :: 0 <= i < |players| ==> fresh(players[i])
    {
      var hands: seq<PlayerHand> := [];
      for i := 0 to |data.players|
        invariant |hands| == i && DistinctSeats(hands)
        invariant forall k :: 0 <= k < i ==> fresh(hands[k]) && hands[k].ToJson() == data.players[k]
      {
        var h := new PlayerHand.FromJson(data.players[i]);
        hands := hands + [h];
      }
      var b := new BoardState.FromJson(data.board);
      this.currentTurn := data.currentTurn;
      this.lastActivePlayer := data.lastActivePlayer;
      this.gameOver := data.gameOver;
      this.difficulty := data.difficulty;
      this.tileConfig := data.tileConfig;
      this.players := hands;
      this.board := b;
    }
  }

  /** `fromJSON(toJSON(s))` reproduces turn, last placer, gameOver, difficulty, tile config,
      every seat and the board. */
  method JsonRoundTrip(s: GameState) returns (copy: GameState)
    ensures fresh(copy)
    ensures copy.ToJson() == s.ToJson()
  {
    copy := new GameState.FromJson(s.ToJson());
  }
}
