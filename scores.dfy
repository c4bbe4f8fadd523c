/** Pass points (src/managers/ScoreManager.ts). */
module Scores {
  import opened Wrappers
  import opened Hands

  /** The `scoreChange` event: the seat and its new score. */
  datatype ScoreChange = ScoreChange(seat: int, newScore: int)

  /** One point to the last placer when that index names a seat; otherwise nothing changes.
      The emitted event is returned. */
  method AwardPassPoint(players: seq<PlayerHand>, lastActivePlayer: int) returns (event: Option<ScoreChange>)
    modifies players
    ensures forall h :: h in players ==> h.tiles == old(h.tiles)
    ensures !(0 <= lastActivePlayer < |players|) ==>
              event == None && forall h :: h in players ==> h.score == old(h.score)
    ensures 0 <= lastActivePlayer < |players| ==>
              players[lastActivePlayer].score == old(players[lastActivePlayer].score) + 1
              && (forall h :: h in players && h != players[lastActivePlayer] ==> h.score == old(h.score))
              && event == Some(ScoreChange(lastActivePlayer, players[lastActivePlayer].score))
  {
    if lastActivePlayer < 0 || lastActivePlayer >= |players| {
      return None;
    }
    var player := players[lastActivePlayer];
    player.score := player.score + 1;
    event := Some(ScoreChange(lastActivePlayer, player.score));
  }

  /** The scores in seat order. */
  function GetScores(players: seq<PlayerHand>): (r: seq<int>)
    reads players
    ensures |r| == |players|
    ensures forall i :: 0 <= i < |players| ==> r[i] == players[i].score
  {
    if players == [] then [] else [players[0].score] + GetScores(players[1..])
  }

  /** Every score becomes 0; no hand's tiles change. */
  method ResetScores(players: seq<PlayerHand>)
    modifies players
    ensures forall h :: h in players ==> h.score == 0 && h.tiles == old(h.tiles)
  {
    for i := 0 to |players|
      invariant forall k :: 0 <= k < i ==> players[k].score == 0
      invariant forall h :: h in players ==> h.tiles == old(h.tiles)
    {
      players[i].score := 0;
    }
  }
}
