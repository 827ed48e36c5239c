/** What a tick of a level means, in plain terms: who dies, who eats, where every snake lies afterwards, and
    what every cell shows, said with the board, the snakes and the moves alone. */
module TickMeaning {
  import opened Geometry
  import opened Definitions
  import opened Boards
  import opened Scores
  import opened Snakes
  import opened LevelModel

  /** The direction a snake moves in: that of its move, if there is one across its own axis. */
  function Aim(s: SnakeState, moves: Moves): Direction {
    if s.player in moves && Vertical(moves[s.player]) != Vertical(s.direction) then moves[s.player] else s.direction
  }

  /** The cell that snake i is about to enter. */
  ghost function Target(l: LevelState, moves: Moves, i: nat): (p: Point)
    requires l.Ready() && i < |l.snakes|
    ensures p in l.grid
  {
    Adjacent(l.snakes[i].points[0], Aim(l.snakes[i], moves), l.def.w, l.def.h)
  }

  /** Another snake is about to enter the same cell. */
  ghost predicate Contested(l: LevelState, moves: Moves, i: nat)
    requires l.Ready() && i < |l.snakes|
  {
    exists j :: 0 <= j < |l.snakes| && j != i && Target(l, moves, j) == Target(l, moves, i)
  }

  ghost predicate Dies(l: LevelState, moves: Moves, i: nat)
    requires l.Ready() && i < |l.snakes|
  {
    var cell := l.grid[Target(l, moves, i)];
    Contested(l, moves, i) || cell == WallCell || cell == SnakeCell
  }

  ghost predicate Eats(l: LevelState, moves: Moves, i: nat)
    requires l.Ready() && i < |l.snakes|
  {
    !Contested(l, moves, i) && l.grid[Target(l, moves, i)] == NumberCell
  }

  // ---------------------------------------------------------------- fates

  lemma {:induction false} TargetIsHead(l: LevelState, moves: Moves, i: nat)
    requires l.Ready() && i < |l.snakes|
    ensures l.TurnPhase(moves).Ready()
    ensures Redirected(l.snakes[i], moves) == l.snakes[i].(direction := Aim(l.snakes[i], moves))
    ensures l.TurnPhase(moves).Heads()[i] == Target(l, moves, i)
  {
    TurnKeepsReady(l, moves);
    hide Adjacent;
    if l.snakes[i].player in moves {
      AxisOf(l.snakes[i].direction, moves[l.snakes[i].player]);
    }
  }

  /** A cell occurs more than once among the heads exactly if some other head is the same. */
  lemma {:induction false} MoreThanOnce(heads: seq<Point>, i: nat)
    requires i < |heads|
    ensures multiset(heads)[heads[i]] > 1 <==> exists j :: 0 <= j < |heads| && j != i && heads[j] == heads[i]
  {
    assert heads == heads[..i] + [heads[i]] + heads[i + 1..];
    if j :| 0 <= j < |heads| && j != i && heads[j] == heads[i] {
      SharedHead(heads, if i < j then i else j, if i < j then j else i);
    } else {
      assert heads[i] !in heads[..i] && heads[i] !in heads[i + 1..];
    }
  }

  lemma {:induction false} FateInPlainTerms(l: LevelState, moves: Moves, i: nat)
    requires l.Ready() && i < |l.snakes|
    ensures l.TurnPhase(moves).Ready()
    ensures
      l.TurnPhase(moves).Fates()[i]
      == if Dies(l, moves, i) then Dead else if Eats(l, moves, i) then NumberEaten else NoResult
  {
    TargetIsHead(l, moves, i);
    hide Target, Aim, LevelState.Ready, LevelState.Heads, LevelState.TurnPhase;
    var heads := l.TurnPhase(moves).Heads();
    forall j | 0 <= j < |l.snakes|
      ensures heads[j] == Target(l, moves, j)
    {
      TargetIsHead(l, moves, j);
    }
    MoreThanOnce(heads, i);
  }

  /** Whoever is about to enter a wall, a snake or a cell that another snake is about to enter as well
      dies, and nobody else does; whoever alone is about to enter the number eats, and nobody else does. */
  lemma {:induction false} WhoDiesAndWhoEats(l: LevelState, moves: Moves)
    requires l.Ready()
    ensures forall i :: 0 <= i < |l.snakes| ==>
      && (l.snakes[i].player in Casualties(l, moves) <==> Dies(l, moves, i))
      && (l.snakes[i].player in Eaters(l, moves) <==> Eats(l, moves, i))
    ensures forall id :: id in Casualties(l, moves) || id in Eaters(l, moves) ==>
      exists i :: 0 <= i < |l.snakes| && l.snakes[i].player == id
  {
    var a := l.TurnPhase(moves);
    TurnKeepsReady(l, moves);
    forall i | 0 <= i < |l.snakes|
      ensures l.snakes[i].player in Casualties(l, moves) <==> Dies(l, moves, i)
      ensures l.snakes[i].player in Eaters(l, moves) <==> Eats(l, moves, i)
    {
      FateInPlainTerms(l, moves, i);
      MeetsItsFate(Dead, a.snakes, a.Fates(), i);
      MeetsItsFate(NumberEaten, a.snakes, a.Fates(), i);
    }
  }

  // ---------------------------------------------------------------- scores and result

  /** Eating adds the value of the number to the player's score; dying adds the death score and takes one
      life. Nobody else's score or lives change. */
  lemma {:induction false} ScoresInPlainTerms(settings: GameSettings, l: LevelState, moves: Moves, sb: ScoreBoard)
    requires l.Ready() && l.Scorable(sb)
    ensures
      var after := TickedScores(settings, l, moves, sb);
      && after.scores.Keys == sb.scores.Keys && after.lives.Keys == sb.lives.Keys
      && (forall i :: 0 <= i < |l.snakes| ==>
            var id := l.snakes[i].player;
            && after.scores[id] == sb.scores[id] + (if Dies(l, moves, i) then settings.deathScore
                                                    else if Eats(l, moves, i) then l.number.value else 0)
            && after.lives[id] == sb.lives[id] - if Dies(l, moves, i) then 1 else 0)
      && (forall id :: id in sb.scores && (forall i :: 0 <= i < |l.snakes| ==> l.snakes[i].player != id) ==>
            after.scores[id] == sb.scores[id] && after.lives[id] == sb.lives[id])
  {
    hide Casualties, Eaters, Dies, Eats, LevelState.Ready;
    WhoDiesAndWhoEats(l, moves);
    NobodyDiesEating(l, moves);
  }

  lemma {:induction false} NobodyDiesEating(l: LevelState, moves: Moves)
    requires l.Ready()
    ensures forall i :: 0 <= i < |l.snakes| ==> !(Dies(l, moves, i) && Eats(l, moves, i))
  {
    hide Contested, Target, LevelState.Ready;
  }

  /** The game is over if somebody dies with a single life left; otherwise a death costs the level; otherwise
      eating the ninth number completes the level; otherwise somebody has eaten or nothing has happened. */
  lemma {:induction false} ResultInPlainTerms(l: LevelState, moves: Moves, sb: ScoreBoard)
    requires l.Ready() && l.Scorable(sb)
    ensures
      ProgressedResult(l, moves, sb)
      == if exists i :: 0 <= i < |l.snakes| && Dies(l, moves, i) && sb.lives[l.snakes[i].player] == 1 then GameOver
         else if exists i :: 0 <= i < |l.snakes| && Dies(l, moves, i) then Dead
         else if exists i :: 0 <= i < |l.snakes| && Eats(l, moves, i) then
           if l.number.value == 9 then AdvanceLevel else NumberEaten
         else NoResult
  {
    hide Casualties, Eaters, Dies, Eats, LevelState.Ready;
    WhoDiesAndWhoEats(l, moves);
    if i :| 0 <= i < |l.snakes| && Dies(l, moves, i) {
      assert l.snakes[i].player in Casualties(l, moves);
    }
    if i :| 0 <= i < |l.snakes| && Eats(l, moves, i) {
      assert l.snakes[i].player in Eaters(l, moves);
    }
  }

  // ---------------------------------------------------------------- snakes and board

  /** The growth that is pending for a snake once it has moved its head. */
  ghost function Growth(settings: GameSettings, l: LevelState, moves: Moves, i: nat): nat
    requires l.Ready() && i < |l.snakes|
  {
    if Eats(l, moves, i) then Wrap(l.snakes[i].pendingGrowth + l.number.value * settings.growthFactor)
    else l.snakes[i].pendingGrowth
  }

  /** The cells of a snake once it has moved its head, before it draws in its tail. */
  ghost function Stretched(l: LevelState, moves: Moves, i: nat): (points: seq<Point>)
    requires l.Ready() && i < |l.snakes|
    ensures points != []
  {
    if Dies(l, moves, i) then l.snakes[i].points else [Target(l, moves, i)] + l.snakes[i].points
  }

  /** Snake i gives up a cell: it has no growth pending, and the cell is its last. */
  ghost predicate GivesUp(settings: GameSettings, l: LevelState, moves: Moves, i: nat, p: Point)
    requires l.Ready() && i < |l.snakes|
  {
    var points := Stretched(l, moves, i);
    Growth(settings, l, moves, i) == 0 && points[|points| - 1] == p
  }

  /** A surviving snake has its new head in front of its body, in the direction it has aimed at. A snake
      with growth pending uses up one unit of it, and any other gives up its last cell. */
  lemma {:induction false} SnakesInPlainTerms(settings: GameSettings, l: LevelState, moves: Moves)
    requires l.Ready()
    ensures
      var after := Ticked(settings, l, moves).snakes;
      && |after| == |l.snakes|
      && forall i :: 0 <= i < |after| ==>
           var growth, points := Growth(settings, l, moves, i), Stretched(l, moves, i);
           after[i] == SnakeState(l.snakes[i].player, if growth > 0 then points else points[..|points| - 1],
                                  Aim(l.snakes[i], moves), if growth > 0 then growth - 1 else 0)
  {
    SizeOfTick(settings, l, moves);
    forall i | 0 <= i < |l.snakes|
      ensures
        var growth, points := Growth(settings, l, moves, i), Stretched(l, moves, i);
        && |Ticked(settings, l, moves).snakes| == |l.snakes|
        && Ticked(settings, l, moves).snakes[i]
        == SnakeState(l.snakes[i].player, if growth > 0 then points else points[..|points| - 1],
                      Aim(l.snakes[i], moves), if growth > 0 then growth - 1 else 0)
    {
      SnakeInPlainTerms(settings, l, moves, i);
    }
  }

  lemma {:induction false} SizeOfTick(settings: GameSettings, l: LevelState, moves: Moves)
    requires l.Ready()
    ensures |Ticked(settings, l, moves).snakes| == |l.snakes|
    ensures Ticked(settings, l, moves).grid.Keys == l.grid.Keys
  {
    TurnKeepsReady(l, moves);
    HeadsKeepReady(settings, l.TurnPhase(moves));
  }

  lemma {:induction false} SnakeInPlainTerms(settings: GameSettings, l: LevelState, moves: Moves, i: nat)
    requires l.Ready() && i < |l.snakes|
    ensures
      var growth, points := Growth(settings, l, moves, i), Stretched(l, moves, i);
      && |Ticked(settings, l, moves).snakes| == |l.snakes|
      && Ticked(settings, l, moves).snakes[i]
      == SnakeState(l.snakes[i].player, if growth > 0 then points else points[..|points| - 1],
                    Aim(l.snakes[i], moves), if growth > 0 then growth - 1 else 0)
  {
    var a := l.TurnPhase(moves);
    TurnKeepsReady(l, moves);
    HeadsKeepReady(settings, a);
    assert Ticked(settings, l, moves) == AfterHeads(settings, a).TailPhase();
    hide Ticked, AfterHeads, Stretched, Growth, LevelState.Ready, LevelState.TurnPhase, Aim;
    MovedInPlainTerms(settings, l, moves, i);
  }

  /** A cell that a snake has given up is empty; any other that a surviving snake has entered shows a snake;
      all others show what they showed. */
  lemma {:induction false} BoardInPlainTerms(settings: GameSettings, l: LevelState, moves: Moves)
    requires l.Ready()
    ensures
      var after := Ticked(settings, l, moves).grid;
      && after.Keys == l.grid.Keys
      && forall p :: p in after ==>
           after[p]
           == if exists i :: 0 <= i < |l.snakes| && GivesUp(settings, l, moves, i, p) then EmptyCell
              else if exists i :: 0 <= i < |l.snakes| && !Dies(l, moves, i) && Target(l, moves, i) == p then SnakeCell
              else l.grid[p]
  {
    SizeOfTick(settings, l, moves);
    forall p | p in l.grid
      ensures p in Ticked(settings, l, moves).grid
      ensures
        Ticked(settings, l, moves).grid[p]
        == if exists i :: 0 <= i < |l.snakes| && GivesUp(settings, l, moves, i, p) then EmptyCell
           else if exists i :: 0 <= i < |l.snakes| && !Dies(l, moves, i) && Target(l, moves, i) == p then SnakeCell
           else l.grid[p]
    {
      CellInPlainTerms(settings, l, moves, p);
    }
  }

  lemma {:induction false} CellInPlainTerms(settings: GameSettings, l: LevelState, moves: Moves, p: Point)
    requires l.Ready() && p in l.grid
    ensures p in Ticked(settings, l, moves).grid
    ensures
      Ticked(settings, l, moves).grid[p]
      == if exists i :: 0 <= i < |l.snakes| && GivesUp(settings, l, moves, i, p) then EmptyCell
         else if exists i :: 0 <= i < |l.snakes| && !Dies(l, moves, i) && Target(l, moves, i) == p then SnakeCell
         else l.grid[p]
  {
    var a := l.TurnPhase(moves);
    TurnKeepsReady(l, moves);
    var b := AfterHeads(settings, a);
    HeadsKeepReady(settings, a);
    assert Ticked(settings, l, moves) == b.TailPhase();
    hide Ticked, AfterHeads, LevelState.Ready, LevelState.TurnPhase, LevelState.Fates, LevelState.Heads, GivesUp, Dies,
         Target;
    WhoEnters(settings, l, moves, p);
    WhoGivesUp(settings, l, moves, p);
  }

  lemma {:induction false} WhoEnters(settings: GameSettings, l: LevelState, moves: Moves, p: Point)
    requires l.Ready() && l.TurnPhase(moves).Ready() && p in l.grid
    ensures
      var b := AfterHeads(settings, l.TurnPhase(moves));
      && p in b.grid
      && b.grid[p]
      == if exists i :: 0 <= i < |l.snakes| && !Dies(l, moves, i) && Target(l, moves, i) == p then SnakeCell
         else l.grid[p]
  {
    var a := l.TurnPhase(moves);
    var heads, fates := a.Heads(), a.Fates();
    hide LevelState.Heads, LevelState.Fates, Dies, Target;
    forall i | 0 <= i < |l.snakes|
      ensures heads[i] == Target(l, moves, i) && (fates[i] == Dead <==> Dies(l, moves, i))
    {
      TargetIsHead(l, moves, i);
      FateInPlainTerms(l, moves, i);
    }
  }

  lemma {:induction false} WhoGivesUp(settings: GameSettings, l: LevelState, moves: Moves, p: Point)
    requires l.Ready() && l.TurnPhase(moves).Ready() && AfterHeads(settings, l.TurnPhase(moves)).Ready()
    ensures
      var b := AfterHeads(settings, l.TurnPhase(moves));
      p in Vacated(b.snakes) <==> exists i :: 0 <= i < |l.snakes| && GivesUp(settings, l, moves, i, p)
  {
    hide AfterHeads, Stretched, Growth, LevelState.Ready, LevelState.TurnPhase, Target, Dies, Eats;
    var b := AfterHeads(settings, l.TurnPhase(moves));
    forall i | 0 <= i < |l.snakes|
      ensures b.snakes[i].points == Stretched(l, moves, i)
      ensures b.snakes[i].pendingGrowth == Growth(settings, l, moves, i)
    {
      MovedInPlainTerms(settings, l, moves, i);
    }
    if i :| 0 <= i < |l.snakes| && GivesUp(settings, l, moves, i, p) {
      assert b.snakes[i].pendingGrowth == 0;
    }
    if p in Vacated(b.snakes) {
      var i :| 0 <= i < |b.snakes| && b.snakes[i].pendingGrowth == 0
               && b.snakes[i].points[|b.snakes[i].points| - 1] == p;
      assert GivesUp(settings, l, moves, i, p);
    }
  }

  lemma {:induction false} MovedInPlainTerms(settings: GameSettings, l: LevelState, moves: Moves, i: nat)
    requires l.Ready() && l.TurnPhase(moves).Ready() && i < |l.snakes|
    ensures
      var b := AfterHeads(settings, l.TurnPhase(moves));
      b.snakes[i]
      == SnakeState(l.snakes[i].player, Stretched(l, moves, i), Aim(l.snakes[i], moves), Growth(settings, l, moves, i))
  {
    TargetIsHead(l, moves, i);
    FateInPlainTerms(l, moves, i);
    NobodyDiesEating(l, moves);
    hide LevelState.Heads, LevelState.Fates, Dies, Eats, Target, LevelState.Ready, Redirected, Aim;
  }
}
