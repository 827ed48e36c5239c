/** The level object: snakes, number and board updated in place. */
module Levels {
  import opened Geometry
  import opened Blocks
  import opened Definitions
  import opened Boards
  import opened Scores
  import opened Snakes
  import opened LevelModel

  ghost function StatesOf(snakes: seq<Snake>): (states: seq<SnakeState>)
    reads snakes
    ensures |states| == |snakes|
    ensures forall i :: 0 <= i < |snakes| ==> states[i] == snakes[i].State()
  {
    seq(|snakes|, i requires 0 <= i < |snakes| reads snakes => snakes[i].State())
  }

  /** The tails of a level that can be ticked are on its board; before the first is drawn in, no cell is given up. */
  lemma {:induction false} ReadyTails(l: LevelState)
    requires l.Ready()
    ensures forall i :: 0 <= i < |l.snakes| ==> l.snakes[i].points != []
    ensures forall i :: 0 <= i < |l.snakes| ==>
      OnBoard(l.snakes[i].points[|l.snakes[i].points| - 1], l.def.w, l.def.h)
    ensures Paint(l.grid, Vacated(l.snakes[..0]), EmptyCell) == l.grid
  {
    assert l.snakes[..0] == [];
  }

  class Level {
    var definition: LevelDefinition
    var snakes: seq<Snake>
    var number: Number
    var board: Board

    /** All objects of a level. */
    ghost function Repr(): set<object>
      reads this, board
    {
      {this, board, board.states} + set s: Snake | s in snakes
    }

    ghost predicate Valid()
      reads Repr()
    {
      && (forall i, j :: 0 <= i < j < |snakes| ==> snakes[i] != snakes[j])
      && board.states.Length0 == definition.w
      && board.states.Length1 == definition.h
    }

    ghost function State(): LevelState
      reads Repr()
    {
      LevelState(definition, StatesOf(snakes), number, board.Grid())
    }

    // -------------------------------------------------------------- starting

    /** A level with nothing on it. */
    constructor Bare(def: LevelDefinition)
      ensures definition == def && snakes == [] && number == NO_NUMBER
      ensures fresh(board) && fresh(board.states)
    {
      definition, snakes, number := def, [], NO_NUMBER;
      board := new Board();
    }

    /** A level without a number, as a client starts it. The program throws if there are too few starts;
        then there is no level. */
    static method Start(settings: GameSettings, def: LevelDefinition, playerIds: seq<PlayerId>)
        returns (level: Level?)
      requires def.WellFormed() && def.randomBlocks == [] && settings.startLength < WORD
      ensures level != null <==> |playerIds| <= |def.starts|
      ensures level != null ==>
        level.Valid() && fresh(level.Repr()) && level.State() == StartOfLevel(settings, def, playerIds)
    {
      level := new Level.Bare(def);
      var enough := level.LayOut(settings, playerIds);
      if !enough {
        return null;
      }
    }

    /** A level with its first number, as the server starts it. */
    static method StartWithNumber(settings: GameSettings, def: LevelDefinition, playerIds: seq<PlayerId>,
                                  draws: seq<Point>)
        returns (level: Level?)
      requires def.WellFormed() && def.randomBlocks == [] && settings.startLength < WORD
      requires |playerIds| <= |def.starts| ==> StartOfLevel(settings, def, playerIds).Placeable(draws)
      ensures level != null <==> |playerIds| <= |def.starts|
      ensures level != null ==>
        level.Valid() && fresh(level.Repr()) && level.State() == FirstOfLevel(settings, def, playerIds, draws)
    {
      hide StartOfLevel, LevelState.Placeable;
      level := Start(settings, def, playerIds);
      if level != null {
        BareLevelFits(settings, def, playerIds);
        var announced := level.RandomNumber(draws, 1);
      }
    }

    /** Put the snakes on their starts and lay out the board, unless there are too few starts. */
    method LayOut(settings: GameSettings, playerIds: seq<PlayerId>) returns (enough: bool)
      requires definition.WellFormed() && definition.randomBlocks == [] && settings.startLength < WORD
      requires snakes == [] && number == NO_NUMBER
      modifies this`snakes, board
      ensures enough <==> |playerIds| <= |definition.starts|
      ensures enough ==> Valid() && fresh(snakes) && fresh(board.states)
      ensures enough ==> State() == StartOfLevel(settings, definition, playerIds)
    {
      hide InitialGrid, Board.Grid;
      enough := InitSnakes(settings, playerIds);
      if !enough {
        return;
      }
      board.Init(definition);
      assert State() == StartOfLevel(settings, definition, playerIds);
    }

    /** Put the players' snakes on the starts, in order; a level with too few starts is refused. */
    method InitSnakes(settings: GameSettings, playerIds: seq<PlayerId>) returns (enough: bool)
      requires settings.startLength < WORD && snakes == []
      modifies this`snakes
      ensures enough <==> |playerIds| <= |definition.starts|
      ensures fresh(snakes) && |snakes| == if enough then |playerIds| else 0
      ensures forall i, j :: 0 <= i < j < |snakes| ==> snakes[i] != snakes[j]
      ensures forall i :: 0 <= i < |snakes| ==>
        snakes[i].State() == NewSnake(playerIds[i], definition.starts[i], settings.startLength)
    {
      var starts := definition.starts;
      if |starts| < |playerIds| {
        return false;
      }
      for start := 0 to |playerIds|
        invariant fresh(snakes) && |snakes| == start
        invariant forall i, j :: 0 <= i < j < |snakes| ==> snakes[i] != snakes[j]
        invariant forall i :: 0 <= i < |snakes| ==>
          snakes[i].State() == NewSnake(playerIds[i], starts[i], settings.startLength)
      {
        var snake := new Snake(playerIds[start], starts[start], settings.startLength);
        snakes := snakes + [snake];
      }
      return true;
    }

    // -------------------------------------------------------------- ticking

    /** Turn a snake if it has a move; find the cell its head is about to enter. */
    method TurnSnake(snake: Snake, moves: Moves) returns (nextHead: Point)
      requires snake.points != [] && OnBoard(snake.points[0], definition.w, definition.h)
      modifies snake
      ensures snake.State() == Redirected(old(snake.State()), moves) && snake.points == old(snake.points)
      ensures nextHead == snake.State().NextHead(definition.w, definition.h)
    {
      hide Adjacent;
      if snake.player in moves {
        snake.Turn(moves[snake.player]);
      }
      nextHead := Adjacent(snake.points[0], snake.direction, definition.w, definition.h);
    }

    /** Turn all snakes; collect the cells all heads are about to enter. */
    method TurnSnakes(moves: Moves) returns (nextHeads: seq<Point>)
      requires Valid() && State().Ready()
      modifies snakes
      ensures Valid() && State() == old(State()).TurnPhase(moves)
      ensures State().Ready() && nextHeads == State().Heads()
    {
      hide Adjacent, Redirected, LevelState.Heads, LevelState.TurnPhase, SnakeState.NextHead, Board.Grid;
      ghost var l := State();
      ghost var turned := l.TurnPhase(moves);
      TurnKeepsReady(l, moves);
      nextHeads := [];
      for i := 0 to |snakes|
        invariant Valid()
        invariant forall k :: 0 <= k < i ==> snakes[k].State() == turned.snakes[k]
        invariant forall k :: i <= k < |snakes| ==> snakes[k].State() == l.snakes[k]
        invariant nextHeads == turned.Heads()[..i]
      {
        assert snakes[i].State() == l.snakes[i];
        var nextHead := TurnSnake(snakes[i], moves);
        nextHeads := nextHeads + [nextHead];
      }
      assert State() == turned;
    }

    /** Advance one head on the shared board and settle its score, life and growth. */
    method AdvanceOneHead(settings: GameSettings, scorer: ScoreTracker, nextHeads: seq<Point>, snake: Snake)
        returns (result: TickResult)
      requires snake.points != [] && OnBoard(snake.points[0], board.states.Length0, board.states.Length1)
      requires snake.player in scorer.scores && snake.player in scorer.lives && scorer.lives[snake.player] > 0
      modifies snake, board.states, scorer
      ensures
        var next := old(snake.State().NextHead(board.states.Length0, board.states.Length1));
        var fate := Fate(next, old(board.Grid()), multiset(nextHeads));
        && snake.State() == Advanced(old(snake.State()), next, fate, number.value * settings.growthFactor)
        && board.Grid() == (if fate == Dead then old(board.Grid()) else old(board.Grid())[next := SnakeCell])
        && scorer.Board() == SettledOne(settings, number.value, old(scorer.Board()), old(snake.player), fate)
        && result == ResultOf(fate, old(scorer.lives[snake.player]))
    {
      hide Fate, Adjacent;
      result := snake.AdvanceHead(board, nextHeads);
      match result {
        case NumberEaten =>
          scorer.AddScore(snake.player, number.value);
          snake.pendingGrowth := Wrap(snake.pendingGrowth + number.value * settings.growthFactor);
        case Dead =>
          scorer.AddScore(snake.player, settings.deathScore);
          var exhausted := scorer.DeductLife(snake.player);
          if exhausted {
            result := GameOver;
          }
        case _ =>
      }
    }

    /** Advance the heads one after the other. It comes to the same as advancing all heads at once. */
    method AdvanceHeads(settings: GameSettings, scorer: ScoreTracker, nextHeads: seq<Point>)
        returns (overallResult: TickResult)
      requires Valid() && State().Ready() && State().Scorable(scorer.Board())
      requires nextHeads == State().Heads()
      modifies snakes, board.states, scorer
      ensures Valid() && State() == old(AfterHeads(settings, State()))
      ensures
        var l, fates := old(State()), old(State().Fates());
        var eaters, casualties := Meeting(NumberEaten, l.snakes, fates), Meeting(Dead, l.snakes, fates);
        && scorer.Board() == Settled(settings, l.number.value, old(scorer.Board()), eaters, casualties)
        && overallResult == Outcome(old(scorer.Board()), eaters, casualties)
    {
      hide Paint, Claimed, Meeting, Settled, Outcome, Fate, Adjacent, GridAfter, ScoresAfter, OutcomeAfter;
      hide Advanced, LevelState.Heads, LevelState.Fates, SettledOne, ResultOf, Board.Grid, SnakeState.NextHead,
           LevelState.HeadPhase, TickResult.Max, TickResult.Rank;
      ghost var l, sb := State(), scorer.Board();
      ghost var fates := l.Fates();
      overallResult := NoResult;
      NothingBeforeTheFirst(settings, l, sb);
      for i := 0 to |snakes|
        invariant Valid()
        invariant forall k :: 0 <= k < i ==>
          snakes[k].State() == Advanced(l.snakes[k], nextHeads[k], fates[k], l.number.value * settings.growthFactor)
        invariant forall k :: i <= k < |snakes| ==> snakes[k].State() == l.snakes[k]
        invariant board.Grid() == GridAfter(l, nextHeads, fates, i)
        invariant scorer.Board() == ScoresAfter(settings, l, fates, sb, i)
        invariant overallResult == OutcomeAfter(l, fates, sb, i)
      {
        GridAfterOneMore(l, i);
        ScoresAfterOneMore(settings, l, fates, sb, i);
        OutcomeAfterOneMore(l, sb, i);
        var result := AdvanceOneHead(settings, scorer, nextHeads, snakes[i]);
        overallResult := overallResult.Max(result);
      }
      EverythingAfterTheLast(settings, l, sb);
      assert State() == l.HeadPhase(settings, nextHeads, fates);
    }

    /** Draw in all tails. */
    method AdvanceTails()
      requires Valid() && State().Ready()
      modifies snakes, board.states
      ensures Valid() && State() == old(State().TailPhase())
    {
      hide Paint, Vacated, Board.Grid, SnakeState.Retracted, LevelState.TailPhase, LevelState.Ready;
      ghost var l := State();
      ReadyTails(l);
      for i := 0 to |snakes|
        invariant Valid()
        invariant forall k :: 0 <= k < i ==> snakes[k].State() == l.snakes[k].Retracted()
        invariant forall k :: i <= k < |snakes| ==> snakes[k].State() == l.snakes[k]
        invariant board.Grid() == Paint(l.grid, Vacated(l.snakes[..i]), EmptyCell)
      {
        TailGridOneMore(l, i);
        assert snakes[i].State() == l.snakes[i];
        snakes[i].AdvanceTail(board);
      }
      assert l.snakes[..|snakes|] == l.snakes;
      assert State() == l.TailPhase();
    }

    /** A tick without a new number, as a client runs it. */
    method Tick(settings: GameSettings, scorer: ScoreTracker, moves: Moves) returns (result: TickResult)
      requires Valid() && State().Ready() && State().Scorable(scorer.Board())
      modifies snakes, board.states, scorer
      ensures Valid() && State() == old(Ticked(settings, State(), moves))
      ensures scorer.Board() == old(TickedScores(settings, State(), moves, scorer.Board()))
      ensures result == old(TickedResult(State(), moves, scorer.Board()))
    {
      hide LevelState.TurnPhase, LevelState.HeadPhase, LevelState.TailPhase, LevelState.Heads, LevelState.Fates;
      hide Settled, Outcome, Meeting, Redirected, Advanced, SnakeState.Retracted, Paint, Claimed, Vacated, Fate;
      TurnKeepsReady(State(), moves);
      HeadsKeepReady(settings, State().TurnPhase(moves));
      var nextHeads := TurnSnakes(moves);
      result := AdvanceHeads(settings, scorer, nextHeads);
      AdvanceTails();
    }

    // -------------------------------------------------------------- numbers

    /** Clear what snakes have left of the current number. */
    method ClearNumber()
      requires Valid() && State().NumberFits()
      modifies board.states
      ensures board.Grid() == Cleared(old(board.Grid()), number.position)
    {
      hide ClearedUpTo, Cleared, Before, Next;
      ghost var g := board.Grid();
      var block := number.position;
      var it := new Iterator(block);
      ClearingAll(g, block);
      while it.point != block.End()
        invariant block.Visits(it.point)
        invariant board.Grid() == ClearedUpTo(g, block, it.point)
        decreases block.max.x - it.point.x, block.max.y - it.point.y
      {
        ClearingOneMore(g, block, it.point);
        NextVisits(block, it.point);
        if board.At(it.point) == NumberCell {
          board.Set(it.point, EmptyCell);
        }
        it.Increment();
      }
    }

    method SetNumber(newNumber: Number)
      requires Valid() && State().NumberFits() && State().(number := newNumber).NumberFits()
      modifies this`number, board.states
      ensures Valid() && State() == old(State()).WithNumber(newNumber)
    {
      hide Cleared, Paint;
      ClearNumber();
      number := newNumber;

      if number.position.min.x == number.position.max.x {
        PaintNothing(board.Grid(), number.position);
      } else {
        board.Assign(number.position, NumberCell);
      }
    }

    /** Place the next number on the first drawn block whose cells are all empty. The draws are what
        the random engine returns; at least one of them is free, or else the source never returns. */
    method RandomNumber(draws: seq<Point>, value: nat) returns (announced: Number)
      requires Valid() && State().NumberFits() && State().Placeable(draws)
      requires definition.w < WORD && definition.h < WORD
      modifies this`number, board.states
      ensures Valid() && announced == old(State()).Drawn(draws, value)
      ensures State() == old(State()).WithNumber(announced)
    {
      var corner := DrawFree(draws);
      var block := NumberBlock(corner);
      SetNumber(Number(block, value));
      announced := number;
    }

    /** The retry loop of RandomNumber. */
    method DrawFree(draws: seq<Point>) returns (corner: Point)
      requires Valid() && definition.w < WORD && definition.h < WORD
      requires forall p :: p in draws ==> p.x + NUMBER_WIDTH <= definition.w && p.y + NUMBER_HEIGHT <= definition.h
      requires SomeFree(board.Grid(), definition.w, definition.h, draws)
      ensures corner == FirstFree(board.Grid(), definition.w, definition.h, draws)
    {
      hide FreeBlock, FirstFree, SomeFree;
      ghost var g, w, h := board.Grid(), definition.w, definition.h;
      assert draws[0..] == draws;
      var k := 0;
      FirstFreeFrom(g, w, h, draws, k);
      var free := IsFree(draws[0]);
      while !free
        invariant 0 <= k < |draws| && SomeFree(g, w, h, draws[k..])
        invariant FirstFree(g, w, h, draws[k..]) == FirstFree(g, w, h, draws)
        invariant free <==> FreeBlock(g, w, h, draws[k])
        decreases |draws| - k
      {
        FirstFreeFrom(g, w, h, draws, k);
        k := k + 1;
        free := IsFree(draws[k]);
      }
      FirstFreeFrom(g, w, h, draws, k);
      corner := draws[k];
    }

    /** All cells of the trial block with this corner are empty. */
    method IsFree(corner: Point) returns (free: bool)
      requires Valid() && definition.w < WORD && definition.h < WORD
      requires corner.x + NUMBER_WIDTH <= definition.w && corner.y + NUMBER_HEIGHT <= definition.h
      ensures free <==> FreeBlock(board.Grid(), definition.w, definition.h, corner)
    {
      var trial := NumberBlock(corner);
      free := true;
      var it := new Iterator(trial);
      while it.point != trial.End()
        invariant trial.Visits(it.point)
        invariant forall p :: trial.Has(p) && Before(p, it.point) ==> board.Grid()[p] == EmptyCell
        decreases trial.max.x - it.point.x, trial.max.y - it.point.y
      {
        if board.At(it.point) != EmptyCell {
          assert it.point in trial.Cells();
          return false;
        }
        it.Increment();
      }
    }

    /** A tick of the server: as Tick, and then the next number or the end of the level. */
    method TickAndDraw(settings: GameSettings, scorer: ScoreTracker, moves: Moves, draws: seq<Point>)
        returns (result: TickResult, announced: Option<Number>)
      requires Valid() && State().Ready() && State().Scorable(scorer.Board()) && State().NumberFits()
      requires State().def.w < WORD && State().def.h < WORD
      requires AsksForNumber(State(), moves, scorer.Board()) ==> Ticked(settings, State(), moves).Placeable(draws)
      modifies this`number, snakes, board.states, scorer
      ensures Valid() && Repr() == old(Repr())
      ensures State() == old(Progressed(settings, State(), moves, scorer.Board(), draws))
      ensures scorer.Board() == old(TickedScores(settings, State(), moves, scorer.Board()))
      ensures result == old(ProgressedResult(State(), moves, scorer.Board()))
      ensures announced == if old(AsksForNumber(State(), moves, scorer.Board())) then Some(State().number) else None
    {
      hide Ticked, TickedScores, TickedResult;
      announced := None;
      TickedKeepsDefinition(settings, State(), moves);
      result := Tick(settings, scorer, moves);
      if result == NumberEaten {
        var oldValue := number.value;
        if oldValue == LAST_NUMBER {
          result := AdvanceLevel;
        } else {
          var n := RandomNumber(draws, oldValue + 1);
          announced := Some(n);
        }
      }
    }
  }
}
