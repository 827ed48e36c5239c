/** Scores and lives of the players. */
module Scores {
  import opened Definitions

  /** What a ScoreTracker holds, as a value. */
  datatype ScoreBoard = ScoreBoard(scores: map<PlayerId, int>, lives: map<PlayerId, int>)

  const NO_SCORES: ScoreBoard := ScoreBoard(map[], map[])

  /** Every player of a new game starts with no points and all lives. */
  function FreshScores(players: seq<PlayerId>, lives: int): (sb: ScoreBoard)
    ensures forall id :: id in sb.scores <==> id in players
    ensures forall id :: id in sb.lives <==> id in players
    ensures forall id :: id in players ==> sb.scores[id] == 0 && sb.lives[id] == lives
  {
    ScoreBoard(map id | id in players :: 0, map id | id in players :: lives)
  }

  lemma {:induction false} FreshNone(lives: int)
    ensures FreshScores([], lives) == NO_SCORES
  {
  }

  lemma {:induction false} FreshOneMore(players: seq<PlayerId>, i: nat, lives: int)
    requires i < |players|
    ensures
      var before := FreshScores(players[..i], lives);
      FreshScores(players[..i + 1], lives)
      == ScoreBoard(before.scores[players[i] := 0], before.lives[players[i] := lives])
  {
    assert players[..i + 1] == players[..i] + [players[i]];
  }

  class ScoreTracker {
    var scores: map<PlayerId, int>
    var lives: map<PlayerId, int>

    constructor ()
      ensures Board() == NO_SCORES
    {
      scores, lives := map[], map[];
    }

    function Board(): ScoreBoard
      reads this
    {
      ScoreBoard(scores, lives)
    }

    method Add(player: PlayerId, count: int)
      requires player !in scores
      modifies this
      ensures scores == old(scores)[player := 0]
      ensures lives == if player in old(lives) then old(lives) else old(lives)[player := count]
    {
      scores := scores[player := 0];
      if player !in lives {
        lives := lives[player := count];
      }
    }

    method Clear()
      modifies this
      ensures Board() == NO_SCORES
    {
      scores := map[];
      lives := map[];
    }

    method AddScore(player: PlayerId, score: int)
      requires player in scores
      modifies this`scores
      ensures scores == old(scores)[player := old(scores)[player] + score]
    {
      scores := scores[player := scores[player] + score];
    }

    method DeductLife(player: PlayerId) returns (exhausted: bool)
      requires player in lives && lives[player] > 0
      modifies this`lives
      ensures lives == old(lives)[player := old(lives)[player] - 1]
      ensures exhausted <==> lives[player] == 0
    {
      lives := lives[player := lives[player] - 1];
      exhausted := 0 == lives[player];
    }

    /** The scorer of a new game: one entry for each player. */
    method AddAll(players: seq<PlayerId>, count: int)
      requires Board() == NO_SCORES
      requires forall i, j :: 0 <= i < j < |players| ==> players[i] != players[j]
      modifies this
      ensures Board() == FreshScores(players, count)
    {
      hide FreshScores;
      assert players[..0] == [];
      FreshNone(count);
      var i := 0;
      while i < |players|
        invariant 0 <= i <= |players|
        invariant Board() == FreshScores(players[..i], count)
      {
        FreshOneMore(players, i, count);
        Add(players[i], count);
        i := i + 1;
      }
      assert players[..i] == players;
    }
  }
}
