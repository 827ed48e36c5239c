/** The order in which a level lists its snakes makes no difference to a tick. */
module OrderIndependence {
  import opened Sequences
  import opened Geometry
  import opened Definitions
  import opened Scores
  import opened Snakes
  import opened LevelModel

  /** The same level with its snakes listed in another order. */
  ghost predicate Reordered(l: LevelState, m: LevelState) {
    && l.LaidOut() && m.LaidOut()
    && m == l.(snakes := m.snakes)
    && multiset(l.snakes) == multiset(m.snakes)
  }

  /** Every snake of one listing is somewhere in the other. */
  lemma {:induction false} Counterpart(l: LevelState, m: LevelState, i: nat) returns (j: nat)
    requires Reordered(l, m) && i < |l.snakes|
    ensures j < |m.snakes| && m.snakes[j] == l.snakes[i]
  {
    assert l.snakes[i] in multiset(m.snakes);
    j :| 0 <= j < |m.snakes| && m.snakes[j] == l.snakes[i];
  }

  lemma {:induction false} ReorderedReady(l: LevelState, m: LevelState)
    requires Reordered(l, m) && l.Ready()
    ensures m.Ready() && multiset(m.Heads()) == multiset(l.Heads())
  {
    forall j | 0 <= j < |m.snakes|
      ensures m.snakes[j].points != []
    {
      var i := Counterpart(m, l, j);
    }
    var w, h := l.def.w, l.def.h;
    var f := (s: SnakeState) => if s.points != [] && s.Within(w, h) then s.NextHead(w, h) else Point(0, 0);
    MapSeqKeepsOrderOut(f, l.snakes, m.snakes);
    assert l.Heads() == MapSeq(f, l.snakes) && m.Heads() == MapSeq(f, m.snakes);
  }

  lemma {:induction false} ReorderedTurns(l: LevelState, m: LevelState, moves: Moves)
    requires Reordered(l, m) && l.Ready()
    ensures Reordered(l.TurnPhase(moves), m.TurnPhase(moves))
  {
    var f := (s: SnakeState) => Redirected(s, moves);
    MapSeqKeepsOrderOut(f, l.snakes, m.snakes);
    assert l.TurnPhase(moves).snakes == MapSeq(f, l.snakes) && m.TurnPhase(moves).snakes == MapSeq(f, m.snakes);
    TurnKeepsReady(l, moves);
    ReorderedReady(l, m);
    TurnKeepsReady(m, moves);
  }

  /** The same snake meets the same fate in both listings. */
  lemma {:induction false} SameFate(l: LevelState, m: LevelState, i: nat, j: nat)
    requires Reordered(l, m) && l.Ready() && m.Ready()
    requires i < |l.snakes| && j < |m.snakes| && l.snakes[i] == m.snakes[j]
    ensures l.Fates()[i] == m.Fates()[j] && l.Heads()[i] == m.Heads()[j]
  {
    ReorderedReady(l, m);
  }

  lemma {:induction false} ClaimedWithin(l: LevelState, m: LevelState)
    requires Reordered(l, m) && l.Ready() && m.Ready()
    ensures Claimed(l.Heads(), l.Fates()) <= Claimed(m.Heads(), m.Fates())
  {
    forall p | p in Claimed(l.Heads(), l.Fates())
      ensures p in Claimed(m.Heads(), m.Fates())
    {
      var i :| 0 <= i < |l.snakes| && l.Fates()[i] != Dead && l.Heads()[i] == p;
      var j := Counterpart(l, m, i);
      SameFate(l, m, i, j);
    }
  }

  lemma {:induction false} MeetingWithin(l: LevelState, m: LevelState, fate: TickResult)
    requires Reordered(l, m) && l.Ready() && m.Ready()
    ensures Meeting(fate, l.snakes, l.Fates()) <= Meeting(fate, m.snakes, m.Fates())
  {
    forall id | id in Meeting(fate, l.snakes, l.Fates())
      ensures id in Meeting(fate, m.snakes, m.Fates())
    {
      var i :| 0 <= i < |l.snakes| && l.Fates()[i] == fate && l.snakes[i].player == id;
      var j := Counterpart(l, m, i);
      SameFate(l, m, i, j);
      MeetsItsFate(fate, m.snakes, m.Fates(), j);
    }
  }

  /** The same snake comes out of the head phase in the same way. */
  lemma {:induction false} SameAdvance(settings: GameSettings, l: LevelState, m: LevelState, i: nat, j: nat)
    requires Reordered(l, m) && l.Ready() && m.Ready()
    requires i < |l.snakes| && j < |m.snakes| && l.snakes[i] == m.snakes[j]
    ensures AfterHeads(settings, l).snakes[i] == AfterHeads(settings, m).snakes[j]
  {
    SameFate(l, m, i, j);
  }

  lemma {:induction false} VacatedWithin(settings: GameSettings, l: LevelState, m: LevelState)
    requires Reordered(l, m) && l.Ready() && m.Ready()
    requires AfterHeads(settings, l).Ready() && AfterHeads(settings, m).Ready()
    ensures Vacated(AfterHeads(settings, l).snakes) <= Vacated(AfterHeads(settings, m).snakes)
  {
    var a, b := AfterHeads(settings, l).snakes, AfterHeads(settings, m).snakes;
    forall p | p in Vacated(a)
      ensures p in Vacated(b)
    {
      var i :| 0 <= i < |a| && a[i].pendingGrowth == 0 && a[i].points[|a[i].points| - 1] == p;
      var j := Counterpart(l, m, i);
      SameAdvance(settings, l, m, i, j);
    }
  }

  lemma {:induction false} SameEatersAndCasualties(l: LevelState, m: LevelState, moves: Moves)
    requires Reordered(l, m) && l.Ready() && m.Ready()
    ensures Eaters(l, moves) == Eaters(m, moves) && Casualties(l, moves) == Casualties(m, moves)
  {
    ReorderedTurns(l, m, moves);
    ReorderedTurns(m, l, moves);
    TurnKeepsReady(l, moves);
    TurnKeepsReady(m, moves);
    var a, b := l.TurnPhase(moves), m.TurnPhase(moves);
    MeetingWithin(a, b, NumberEaten);
    MeetingWithin(b, a, NumberEaten);
    MeetingWithin(a, b, Dead);
    MeetingWithin(b, a, Dead);
  }

  lemma {:induction false} SameGrid(settings: GameSettings, l: LevelState, m: LevelState)
    requires Reordered(l, m) && l.Ready() && m.Ready()
    requires AfterHeads(settings, l).Ready() && AfterHeads(settings, m).Ready()
    ensures AfterHeads(settings, l).TailPhase().grid == AfterHeads(settings, m).TailPhase().grid
  {
    assert Reordered(m, l);
    ClaimedWithin(l, m);
    ClaimedWithin(m, l);
    VacatedWithin(settings, l, m);
    VacatedWithin(settings, m, l);
  }

  /** Listing the snakes in another order gives the same board, the same snake, score and lives for
      every player, and the same result. */
  lemma {:induction false} TickWhateverTheOrder(settings: GameSettings, l: LevelState, m: LevelState, moves: Moves,
                                                sb: ScoreBoard)
    requires Reordered(l, m) && l.Ready()
    ensures m.Ready()
    ensures
      var t, u := Ticked(settings, l, moves), Ticked(settings, m, moves);
      && t.grid == u.grid
      && |t.snakes| == |l.snakes| == |m.snakes| == |u.snakes|
      && (forall i, j :: 0 <= i < |t.snakes| && 0 <= j < |u.snakes| && l.snakes[i].player == m.snakes[j].player ==>
            t.snakes[i] == u.snakes[j])
    ensures TickedScores(settings, l, moves, sb) == TickedScores(settings, m, moves, sb)
    ensures TickedResult(l, moves, sb) == TickedResult(m, moves, sb)
  {
    hide Ticked, TickedScores, TickedResult;
    BoardAndScoresWhateverTheOrder(settings, l, m, moves, sb);
    TickedKeepsCount(settings, l, moves);
    TickedKeepsCount(settings, m, moves);
    assert |l.snakes| == |multiset(l.snakes)| && |m.snakes| == |multiset(m.snakes)|;
    ReorderedTurns(l, m, moves);
    hide Reordered;
    var t, u := Ticked(settings, l, moves), Ticked(settings, m, moves);
    forall i, j | 0 <= i < |t.snakes| && 0 <= j < |u.snakes| && l.snakes[i].player == m.snakes[j].player
      ensures t.snakes[i] == u.snakes[j]
    {
      SameSnakeAfterTick(settings, l, m, moves, i, j);
    }
  }

  lemma {:induction false} TickedKeepsCount(settings: GameSettings, l: LevelState, moves: Moves)
    requires l.Ready()
    ensures |Ticked(settings, l, moves).snakes| == |l.snakes|
  {
    TurnKeepsReady(l, moves);
    HeadsKeepReady(settings, l.TurnPhase(moves));
  }

  lemma {:induction false} BoardAndScoresWhateverTheOrder(settings: GameSettings, l: LevelState, m: LevelState,
                                                          moves: Moves, sb: ScoreBoard)
    requires Reordered(l, m) && l.Ready()
    ensures m.Ready()
    ensures Ticked(settings, l, moves).grid == Ticked(settings, m, moves).grid
    ensures TickedScores(settings, l, moves, sb) == TickedScores(settings, m, moves, sb)
    ensures TickedResult(l, moves, sb) == TickedResult(m, moves, sb)
  {
    ReorderedReady(l, m);
    ReorderedTurns(l, m, moves);
    TurnKeepsReady(l, moves);
    TurnKeepsReady(m, moves);
    HeadsKeepReady(settings, l.TurnPhase(moves));
    HeadsKeepReady(settings, m.TurnPhase(moves));
    SameEatersAndCasualties(l, m, moves);
    SameGrid(settings, l.TurnPhase(moves), m.TurnPhase(moves));
    hide Settled, Outcome, Eaters, Casualties, AfterHeads, LevelState.TurnPhase, LevelState.TailPhase;
  }

  lemma {:induction false} SameSnakeAfterTick(settings: GameSettings, l: LevelState, m: LevelState, moves: Moves,
                                              i: nat, j: nat)
    requires Reordered(l, m) && l.Ready() && m.Ready()
    requires Reordered(l.TurnPhase(moves), m.TurnPhase(moves))
    requires i < |l.snakes| && j < |m.snakes| && l.snakes[i].player == m.snakes[j].player
    ensures i < |Ticked(settings, l, moves).snakes| && j < |Ticked(settings, m, moves).snakes|
    ensures Ticked(settings, l, moves).snakes[i] == Ticked(settings, m, moves).snakes[j]
  {
    var k := Counterpart(l, m, i);
    assert j == k;
    TurnKeepsReady(l, moves);
    TurnKeepsReady(m, moves);
    HeadsKeepReady(settings, l.TurnPhase(moves));
    HeadsKeepReady(settings, m.TurnPhase(moves));
    SameAdvance(settings, l.TurnPhase(moves), m.TurnPhase(moves), i, j);
  }
}
