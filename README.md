# Four-seat double-six dominoes: a verified model of the rules engine

This project models the rules engine of a four-seat domino game. One human plays
against three computer players with a double-six tile set. The model covers:

- the tiles and how they convert to records;
- the tile count of a set, its generation in canonical order, the shuffle and the deal;
- a player's hand and its legal-tile queries;
- the board with its two branches, each carrying an open pip value and a phase counter;
- the placement classification (standing, rotation, flip and the legal (tile, branch) matches);
- the turn order, pass points, the Fish detection walk and the win on an empty hand;
- the three computer move policies (Easy, Hard, Random) and how a difficulty selects one;
- what the human and the computer are allowed to do at the start of a turn.

There is one Dafny module per source file:

| module | models |
|---|---|
| `Dominoes` | `src/models/Domino.ts` |
| `TileSets` | `src/models/TileConfig.ts` |
| `Hands` | `src/models/PlayerHand.ts` |
| `Boards` | `src/models/BoardState.ts` |
| `Slots` | `src/managers/SlotHelper.ts` |
| `Decks` | `src/managers/DeckManager.ts` |
| `Games` | `src/models/GameState.ts` |
| `Scores` | `src/managers/ScoreManager.ts` |
| `Strategies` | `src/ai/AIStrategy.ts` |
| `Scenes` | the game-state parts of `src/scenes/GameScene.ts` |
| `Wrappers` | `Option` |

Model choices:

- A domino is a value. Its only mutable field is `available`; `MarkUnavailable` is that one write.
- Objects whose fields the source updates in place are classes: `PlayerHand`, `BoardState`,
  `SlotHelper`, `DeckManager`, `GameState` and `GameScene`. The source's `readonly` fields are `const`.
- Each state-changing method is specified against a value function of the object's record form
  (`ToJson()`). For example, `ConfirmMoving` ends in `Move(old record, …)`, and the properties
  are proved about `Move` and `Advance`.
- `toJSON`/`fromJSON` are conversions between a class and a plain record. Their round trips are stated by
  the module-level `JsonRoundTrip` methods.
- `Math.random()` is a parameter `roll: real` with `0 <= roll < 1`. The index drawn is
  `Floor(roll * n)`, as in `Math.floor(Math.random() * n)`. The shuffle's choice is a
  nondeterministic `j` in `[0, i]`.
- JavaScript's `%` truncates toward zero. It is modelled by `Games.JsRem`, which agrees with
  Dafny's `%` on non-negative dividends.
- `endGame(w)` writes `gameOver := true`. The scene methods return the winner as an
  `Outcome` value (`GameEnded(-1)` is Fish).
- `checkStanding` treats phase 2 the same as the corner phases 1 and 3: in phase 2 a non-double
  stands and a double lies. The model follows the code.

## Model

| member | source | states |
|---|---|---|
| Dominoes.IsDouble | src/models/Domino.ts:16-18 | a tile is a double iff the only value it matches is its top pip |
| Dominoes.NewDomino | src/models/Domino.ts:9-14 | the tile has the given id and pips; `available` is true when not given |
| Dominoes.MarkUnavailable | src/models/Domino.ts:9-14 | clearing `available` keeps id, top and bottom: only `available` is mutable |
| Dominoes.ToJson | src/models/Domino.ts:20-27 | the record carries the tile's id, pips and availability |
| Dominoes.FromJson | src/models/Domino.ts:29-31 | the tile carries the record's id, pips and availability |
| Dominoes.JsonRoundTrip | src/models/Domino.ts:20-31 | `fromJSON(toJSON(d))` is `d` |
| Dominoes.JsonRoundTripData | src/models/Domino.ts:20-31 | `toJSON(fromJSON(r))` is `r` |
| Dominoes.ToJsonAll | src/models/PlayerHand.ts:62 | mapping `toJSON` over a hand keeps length and position |
| Dominoes.FromJsonAll | src/models/PlayerHand.ts:72 | mapping `fromJSON` over records keeps length and position |
| Dominoes.JsonAllRoundTrip | src/models/PlayerHand.ts:60-75 | converting a tile list to records and back gives the same list |
| Dominoes.JsonAllRoundTripData | src/models/PlayerHand.ts:60-75 | converting records to tiles and back gives the same records |
| TileSets.TileCount | src/models/TileConfig.ts:5-7 | twice the count is (maxPip+1)(maxPip+2), so the division by 2 is exact |
| TileSets.ProductOfConsecutiveIsEven | src/models/TileConfig.ts:6 | the product of two consecutive integers is even |
| TileSets.DoubleSixCount | src/scenes/GameScene.ts:65 | the double-six set has 28 tiles, the number of tile images loaded |
| Hands.ValidTilesOf | src/models/PlayerHand.ts:43-50 | the filter keeps only tiles showing one of the two open values and is no longer than the hand |
| Hands.ValidTilesMembership | src/models/PlayerHand.ts:43-50 | a tile is kept iff it is in the hand and shows the left or right value |
| Hands.ValidTilesMultiplicity | src/models/PlayerHand.ts:43-50 | a playable tile is kept as often as it occurs, an unplayable one never |
| Hands.ValidTilesAppend | src/models/PlayerHand.ts:43-50 | filtering a concatenation concatenates the filtered parts: hand order is kept |
| Hands.ValidTilesEmptyIff | src/models/PlayerHand.ts:52-54 | the filter is non-empty iff some tile of the hand is playable |
| Hands.FirstIndexOf | src/models/PlayerHand.ts:38 | `findIndex`: -1 when no tile has the id, otherwise the first position holding it |
| Hands.PlayerHand.constructor | src/models/PlayerHand.ts:21-31 | a new hand has no tiles, score 0 and the given type, seat position and name |
| Hands.PlayerHand.AddTile | src/models/PlayerHand.ts:33-35 | the tile is appended at the end; earlier tiles are unchanged |
| Hands.PlayerHand.RemoveTile | src/models/PlayerHand.ts:37-41 | an absent id returns nothing and keeps the hand; a present id removes and returns the first tile with it, keeping the others in order |
| Hands.PlayerHand.GetValidTiles | src/models/PlayerHand.ts:43-50 | exactly the hand's tiles that show the left or right value |
| Hands.PlayerHand.HasValidMoves | src/models/PlayerHand.ts:52-54 | true iff some tile of the hand shows the left or right value |
| Hands.PlayerHand.IsEmpty | src/models/PlayerHand.ts:56-58 | true iff the hand holds no tile |
| Hands.PlayerHand.ToJson | src/models/PlayerHand.ts:60-68 | the record holds the converted tiles, score, type, position and name |
| Hands.PlayerHand.FromJson | src/models/PlayerHand.ts:70-75 | the new hand converts back to exactly the given record |
| Hands.JsonRoundTrip | src/models/PlayerHand.ts:60-75 | `fromJSON(toJSON(h))` has h's tiles, score, type, position and name |
| Boards.MergeConfig | src/models/BoardState.ts:51-53 | each supplied key overrides its default; every other key keeps the default |
| Boards.DefaultConfigValues | src/models/BoardState.ts:31-36 | the defaults are sideLimit 13, tileOffset 60, lyingOffset 30, cornerShift 1.5 |
| Boards.BoardState.constructor | src/models/BoardState.ts:38-53 | a fresh board: both values -1, phases and hor/ver 0, not started, no placed tiles, merged config |
| Boards.BoardState.BranchNum | src/models/BoardState.ts:61 | the open value of the named branch |
| Boards.BoardState.CanPlaceOnBranch | src/models/BoardState.ts:59-63 | always true before start; afterwards true iff the tile shows that branch's value |
| Boards.BoardState.AddPlacedTile | src/models/BoardState.ts:65-73 | appends exactly one record holding the tile's snapshot; no other field changes |
| Boards.BoardState.ToJson | src/models/BoardState.ts:75-88 | the record carries every branch, phase, hor/ver field, `started` and the placed tiles |
| Boards.BoardState.FromJson | src/models/BoardState.ts:90-103 | the new board converts back to exactly the record, with the default config |
| Boards.JsonRoundTrip | src/models/BoardState.ts:75-103 | `fromJSON(toJSON(b))` reproduces all of b's fields other than the config |
| Slots.CheckStanding | src/managers/SlotHelper.ts:31-39 | in phase 0 or from 4 a tile stands iff it is a double; in every other phase iff it is not |
| Slots.MoveAmount | src/managers/SlotHelper.ts:131-136 | the move is 1 for a standing tile and 2 for a lying one |
| Slots.ComputeFlip | src/managers/SlotHelper.ts:108-129 | doubles and the first tile are never flipped; a flip means exactly one pip equals the branch value |
| Slots.GetSlotPosition | src/managers/SlotHelper.ts:41-106 | standing per phase; rotation 0 or -90; on a fresh board no flip and rotation 0 iff double |
| Slots.Advance | src/managers/SlotHelper.ts:145-209 | each phase's accumulator rule and threshold; the phase never falls and rises by at most one |
| Slots.InitialTrackGrowth | src/models/BoardState.ts:41-46 | a fresh board's two tracks satisfy the growth invariant |
| Slots.AdvancePreservesGrowth | src/managers/SlotHelper.ts:149-207 | moves of 1 or 2 keep the invariant, so the phase stays within 0..4 |
| Slots.OpenEnd | src/managers/SlotHelper.ts:226-232 | the new open end is the tile's other pip when it matches the branch; the top pip otherwise |
| Slots.OpenEndOfDouble | src/managers/SlotHelper.ts:226-232 | a matching double leaves the branch's value unchanged |
| Slots.Occupy | src/managers/SlotHelper.ts:211-239 | the first tile sets left to top and right to bottom (both to top for a double); later ones set only the named branch to the tile's other end; tracks and placed records are kept and the board is started |
| Slots.FirstTileSetsBothEnds | src/managers/SlotHelper.ts:214-223 | on a fresh board the left value is the top pip and the right value the bottom pip |
| Slots.Move | src/managers/SlotHelper.ts:131-143 | the named branch's track advances by the tile's move amount for its phase; the other track, both open values, `started` and the placed records are kept |
| Slots.MovePreservesGrowth | src/managers/SlotHelper.ts:131-207 | a placement keeps the growth invariant on both branches |
| Slots.GetMatchingTiles | src/managers/SlotHelper.ts:241-257 | the loop's result is the per-tile match list, in hand order |
| Slots.MatchesAreLegal | src/managers/SlotHelper.ts:244-253 | each result is a hand tile showing its branch's value; only 'left' when the two values are equal |
| Slots.MatchesAreComplete | src/managers/SlotHelper.ts:244-253 | every hand tile showing the left value is offered on 'left', and on 'right' for a distinct right value |
| Slots.MatchesOfTileMultiplicity | src/managers/SlotHelper.ts:244-253 | one tile yields each (tile, branch) pair at most once |
| Slots.MatchesMultiplicity | src/managers/SlotHelper.ts:244-254 | a (tile, branch) pair occurs no more often than the tile occurs in the hand |
| Slots.MatchesLength | src/managers/SlotHelper.ts:244-254 | at most two results per tile, and at most one when the values are equal |
| Slots.SlotHelper.constructor | src/managers/SlotHelper.ts:24-29 | the helper's constants are the board config's |
| Slots.SlotHelper.UpdateBranchPosition | src/managers/SlotHelper.ts:145-209 | the board becomes its old record with the named track advanced; nothing else changes |
| Slots.SlotHelper.ConfirmMoving | src/managers/SlotHelper.ts:131-143 | the board becomes `Move` of its old record |
| Slots.SlotHelper.ConfirmOccupation | src/managers/SlotHelper.ts:211-239 | the board becomes `Occupy` of its old record |
| Decks.Row | src/managers/DeckManager.ts:12-15 | the inner loop emits (top, top), …, (top, maxPip) |
| Decks.DeckOf | src/managers/DeckManager.ts:10-16 | the tile at position k has id k and the k-th pair |
| Decks.DeckOfSnoc | src/managers/DeckManager.ts:13-14 | pushing one pair appends one tile whose id is the running counter |
| Decks.PairsBeforeLength | src/managers/DeckManager.ts:11-16 | after `top` outer rounds, twice the number of tiles is top(2·maxPip+3−top) |
| Decks.PairsBeforeBounds | src/managers/DeckManager.ts:11-16 | after `top` outer rounds every pair has 0 ≤ a < top and a ≤ b ≤ maxPip |
| Decks.PairsBeforeOrdered | src/managers/DeckManager.ts:11-16 | after `top` outer rounds the pairs strictly increase in lexicographic order |
| Decks.PairsBeforeComplete | src/managers/DeckManager.ts:11-16 | after `top` outer rounds every pair with a < top and a ≤ b ≤ maxPip has occurred |
| Decks.PairsBeforeShape | src/managers/DeckManager.ts:11-16 | every pair has 0 ≤ a ≤ b ≤ maxPip, pairs strictly increase, all pairs below `top` occur |
| Decks.AllPairsCount | src/managers/DeckManager.ts:8-18 | the generated set has `getTileCount` tiles |
| Decks.CanonicalDeckIds | src/managers/DeckManager.ts:10-16 | ids run 0..n−1 in order, with top ≤ bottom and both within 0..maxPip |
| Decks.CanonicalDeckPairs | src/managers/DeckManager.ts:11-16 | each pair 0 ≤ a ≤ b ≤ maxPip occurs, and no pair occurs twice |
| Decks.FirstTileIsDoubleBlank | src/managers/DeckManager.ts:9-13 | tile 0 is the double blank |
| Decks.DistinctIdsNoDuplicates | src/managers/DeckManager.ts:10-14 | a list with distinct ids holds each tile at most once |
| Decks.CanonicalDeckNoDuplicates | src/managers/DeckManager.ts:10-16 | the generated set holds each tile at most once |
| Decks.FullBlock | src/managers/DeckManager.ts:33-39 | a block lying inside the deck is dealt in full |
| Decks.DealtBlocksDisjoint | src/managers/DeckManager.ts:31-42 | two seats' blocks of a duplicate-free deck share no tile |
| Decks.StandardDealUsesWholeDeck | src/managers/DeckManager.ts:31-42 | four blocks of 7 from 28 tiles are the whole deck |
| Decks.GetTilesPerPlayer | src/managers/DeckManager.ts:51-54 | the result is floor(count / playerCount) |
| Decks.StandardTilesPerPlayer | src/managers/DeckManager.ts:51-54 | 28 tiles over 4 seats gives 7 each |
| Decks.DeckManager.constructor | src/managers/DeckManager.ts:6 | a new manager holds no tiles |
| Decks.DeckManager.GenerateTileSet | src/managers/DeckManager.ts:8-18 | the deck is reset and becomes the canonical set, which is also returned |
| Decks.DeckManager.ShuffleTiles | src/managers/DeckManager.ts:20-25 | the deck is permuted: same length and same multiset |
| Decks.DeckManager.DealTo | src/managers/DeckManager.ts:33-40 | seat p's block: positions p·k … p·k+k−1 that exist, appended to its hand in order |
| Decks.DeckManager.DistributeTiles | src/managers/DeckManager.ts:27-45 | shuffles, then gives every seat its block, both in the hand and in the returned lists |
| Games.JsRem | src/models/GameState.ts:52 | JavaScript `%`: strictly between -n and n, sign of the dividend, Euclidean on non-negative dividends |
| Games.JsRemOdd | src/models/GameState.ts:52 | negating the dividend negates the remainder |
| Games.NextSeatInRange | src/models/GameState.ts:51-53 | the next seat is in range; it is turn+1, or 0 after the last seat |
| Games.FourAdvancesReturn | src/models/GameState.ts:51-53 | four advances at a four-seat table return to the start |
| Games.HandsToJson | src/models/GameState.ts:62 | every seat converted in order |
| Games.GameState.constructor | src/models/GameState.ts:24-37 | turn 0, last placer -1, not over, default maxPip 6; human at seat 0, AIs at 1–3, empty hands, fresh board |
| Games.GameState.CurrentPlayer | src/models/GameState.ts:39-41 | the seat whose turn it is |
| Games.GameState.HumanPlayer | src/models/GameState.ts:43-45 | seat 0 |
| Games.GameState.IsHumanTurn | src/models/GameState.ts:47-49 | true iff the turn is seat 0 |
| Games.GameState.AdvanceTurn | src/models/GameState.ts:51-53 | the turn becomes (turn+1) % seats; nothing else changes, so a valid game stays valid |
| Games.GameState.ToJson | src/models/GameState.ts:55-65 | the record holds every field, the seats' records and the board's record |
| Games.GameState.FromJson | src/models/GameState.ts:67-75 | the new game converts back to exactly the record, with distinct fresh seats |
| Games.JsonRoundTrip | src/models/GameState.ts:55-75 | `fromJSON(toJSON(s))` reproduces turn, last placer, gameOver, difficulty, tile config, seats and board |
| Scores.AwardPassPoint | src/managers/ScoreManager.ts:7-14 | out of range: no score changes; in range: that seat gains exactly 1 and no other score or hand changes |
| Scores.GetScores | src/managers/ScoreManager.ts:16-18 | the scores in seat order, one per seat |
| Scores.ResetScores | src/managers/ScoreManager.ts:20-24 | every score becomes 0 and no hand changes |
| Strategies.PickIndex | src/ai/AIStrategy.ts:25 | the drawn index is within the list |
| Strategies.EveryIndexReachable | src/ai/AIStrategy.ts:25 | every index is drawn by some roll |
| Strategies.Pick | src/ai/AIStrategy.ts:25 | the drawn entry is one of the list's |
| Strategies.NewOpenEnd | src/ai/AIStrategy.ts:49-55 | the new end is one of the tile's pips |
| Strategies.HasOtherTileOnIff | src/ai/AIStrategy.ts:58-60 | the scan succeeds iff the hand has a different-id tile showing the new end |
| Strategies.SeparateTiles | src/ai/AIStrategy.ts:35-71 | the loop's lists are the good and bad filters of the matches against the target seat |
| Strategies.SeparatePartition | src/ai/AIStrategy.ts:44-68 | good and bad together are the matches, counted with multiplicity |
| Strategies.SeparateMembership | src/ai/AIStrategy.ts:50-67 | a match is in good iff it is good, and in bad iff it is not |
| Strategies.SeparateKeepsOrder | src/ai/AIStrategy.ts:44-68 | classification keeps input order (it distributes over concatenation) |
| Strategies.GoodOfAppend | src/ai/AIStrategy.ts:44-68 | the good list of a concatenation is the concatenation of the good lists |
| Strategies.BadOfAppend | src/ai/AIStrategy.ts:44-68 | the bad list of a concatenation is the concatenation of the bad lists |
| Strategies.NonDoublesOf | src/ai/AIStrategy.ts:116 | exactly the non-double choices |
| Strategies.RandomSelectTile | src/ai/AIStrategy.ts:18-28 | null iff there are no matches; otherwise one of them |
| Strategies.HardSelectTile | src/ai/AIStrategy.ts:73-102 | null iff there are no matches |
| Strategies.HardChoiceIsMatch | src/ai/AIStrategy.ts:79-100 | with matches, Hard returns one of them |
| Strategies.HardBlocksHuman | src/ai/AIStrategy.ts:81-90 | before seat 0, Hard plays a bad match whenever one exists |
| Strategies.HardFeedsNextSeat | src/ai/AIStrategy.ts:81-96 | before any other seat, Hard plays a match that seat can follow whenever one exists |
| Strategies.EasySelectTile | src/ai/AIStrategy.ts:104-168 | null on no matches |
| Strategies.EasyChoiceIsMatch | src/ai/AIStrategy.ts:110-166 | a non-null Easy choice is one of the matches |
| Strategies.EasyPrefersNonDoubleGood | src/ai/AIStrategy.ts:116-119 | a good non-double match, if one exists, is what Easy plays |
| Strategies.EasyPrefersGood | src/ai/AIStrategy.ts:121-124 | a good match, if one exists, is what Easy plays |
| Strategies.EasyPassIff | src/ai/AIStrategy.ts:126-162 | Easy is null iff no matches, or no match is good, every match strands the human, and the human can play now |
| Strategies.CreateStrategy | src/ai/AIStrategy.ts:170-176 | 0 is Easy, 2 is Hard, anything else Random |
| Strategies.SelectTile | src/ai/AIStrategy.ts:10-16 | null on no matches; Hard and Random are never null otherwise |
| Strategies.ChoiceIsMatch | src/ai/AIStrategy.ts:10-16 | whatever the policy, a choice is one of the offered matches |
| Scenes.TilesOf | src/scenes/GameScene.ts:940-944 | each seat's tiles, in seat order |
| Scenes.SeatAfter | src/scenes/GameScene.ts:938 | a seat index in 0..3 |
| Scenes.SeatsUpTo | src/scenes/GameScene.ts:938-939 | 0 iff the seat on turn placed last; the walk reaches the last placer after that many steps |
| Scenes.SeatAfterReachesLast | src/scenes/GameScene.ts:939 | the walk meets the last placer exactly on its final step |
| Scenes.NextSeatAfter | src/scenes/GameScene.ts:945 | one walk step is one more seat |
| Scenes.NotFishAtPlayableSeat | src/scenes/GameScene.ts:942-944 | a seat on the way that can play rules Fish out |
| Scenes.FishDecidedByLastPlacer | src/scenes/GameScene.ts:948-956 | once every earlier seat is stuck, Fish iff the last placer is stuck |
| Scenes.WalkStep | src/scenes/GameScene.ts:939-946 | passing a stuck seat that is not the last placer: the last placer is still ahead, the next seat is one further on, and every seat passed is stuck |
| Scenes.WalkEnd | src/scenes/GameScene.ts:939-957 | when the walk reaches the last placer, it took exactly the seats up to it, and Fish iff the last placer is stuck |
| Scenes.FishWalk | src/scenes/GameScene.ts:927-957 | false at once when the seat on turn placed last; Fish iff every seat after it up to the last placer is stuck; at most 3 hands inspected; stops at the first seat that can play |
| Scenes.HumanControls | src/scenes/GameScene.ts:579-611 | only hand tiles are draggable; when passing is enabled the board is started and nothing is draggable |
| Scenes.DraggableOf | src/scenes/GameScene.ts:603-611 | exactly the hand tiles whose id is among the valid tiles |
| Scenes.HumanPassGate | src/scenes/GameScene.ts:579-598 | the human can pass iff the board is started and no tile shows an open value; on a fresh board every tile is draggable |
| Scenes.HumanDraggableAreValid | src/scenes/GameScene.ts:600-611 | after start, every playable tile is draggable and every draggable one shares its id with a playable one |
| Scenes.AiDecision | src/scenes/GameScene.ts:962-1030 | the computer does nothing iff the game is over or paused; otherwise it plays or passes |
| Scenes.AiFirstMove | src/scenes/GameScene.ts:999-1006 | on a fresh board the computer plays one of its own tiles on 'right' |
| Scenes.AiPassOrLegalPlay | src/scenes/GameScene.ts:1008-1029 | once started, the computer passes iff it has no match or the Easy policy declines; any tile it plays is its own and shows that branch's value |
| Scenes.GameScene.constructor | src/scenes/GameScene.ts:59-95 | a new game at the chosen difficulty (1 when none is given): a fresh board in its initial state with the default config, four fresh empty hands with score 0 laid out human at the bottom and computers left, top and right, turn 0, nobody placed, and the slot helper built from the board |
| Scenes.GameScene.CheckFish | src/scenes/GameScene.ts:927-957 | result as for the walk; Fish sets gameOver |
| Scenes.GameScene.HandleAIPass | src/scenes/GameScene.ts:1067-1090 | the last placer gains 1 and nobody else does; Fish ends the game with winner -1; otherwise the turn advances by one; difficulty, tile config and validity are kept |
| Scenes.GameScene.HandlePass | src/scenes/GameScene.ts:897-925 | nothing when the game is over; otherwise the same as a computer pass; difficulty, tile config and validity are kept |
| Scenes.GameScene.PlaceOnBoard | src/scenes/GameScene.ts:828-830 | the board record becomes the old one occupied, then moved, then with the placed record appended |
| Scenes.GameScene.FinalizePlacement | src/scenes/GameScene.ts:824-870 | board: occupation, move and one placed record; the tile leaves the placer's hand; the placer becomes the last placer; an empty hand wins before the turn advances; difficulty and tile config are kept, and a valid game stays valid |

## Left out

- Phaser rendering and input are not modelled: sprites, tweens, timers and think delays, drag and drop, ghost slots, `getHandPositions`, `findNearestSlot`, messages and sounds.
- `src/scenes/MenuScene.ts`, `src/main.ts`, `public/sw.js`, `src/managers/ThemeManager.ts`, `src/managers/AudioManager.ts` and `src/utils/EventBus.ts` are not part of this model. Their work is UI, storage, network or callback dispatch.
- Events are not modelled, except the game result. `AwardPassPoint` also returns its `scoreChange` payload.
- Slots.GetSlotPosition: the x/y pixel coordinates are left out because they are presentation only. Standing, rotation, branch and flip are modelled.
- JSON text is not modelled; `toJSON`/`fromJSON` are record conversions.
- Boards.BoardState.FromJson: the board gets the default config, as `new BoardState()` does. A saved board's config is therefore not restored.
- The random starting seat (`src/scenes/GameScene.ts:460`) is not modelled, because it is a UI-side draw. Any seat in 0..3 may start.
- Decks.DeckManager.ShuffleTiles: proved to be a permutation. That the distribution is uniform is not stated.
- Decks.DeckManager.DistributeTiles: requires the seats to be distinct objects. The source never passes the same hand twice.
- Decks.GetTilesPerPlayer: requires at least one seat, because JavaScript's division by 0 gives a float the model does not represent.
- Scenes.GameScene.CheckFish: requires the last placer to be a seat in 0..3. A pass is only possible on a started board, and the first placement (`finalizePlacement`) sets `lastActivePlayer` to a seat, so -1 never reaches `checkFish`. With -1 the source's loop would stop at the first seat that can play and would run forever only when all four seats are stuck. The two pass handlers require the same, so their `lastActivePlayer >= 0` test is always true.
- Scenes.AiDecision: the decision is modelled as a function of the state at the end of the think time. It requires a non-empty hand on a fresh board. With an empty hand the source picks no tile, and `executeAIMove` would then fail on `choice.tile.id` (`src/scenes/GameScene.ts:1034`); that error path is excluded.
- Strategies.HardSelectTile: requires a seat index of at least -1 when there are matches. Below that the next seat can be negative and the source would read a missing hand.
- `Math.random()` becomes a `roll` parameter. The think-time draw of `startAITurn` is left out because it only delays.
- `available = false` on the placed tile (`src/scenes/GameScene.ts:837`) is modelled as `Dominoes.MarkUnavailable`. `FinalizePlacement` does not repeat it, because the tile has already left the hand and the board holds its own snapshot.
- `DeckManager.getTiles`, the `branchNums` getter and the unused `SlotHelper.shouldFlipTile` are not modelled. They only copy or re-expose fields.
