/** The game object: it starts levels, ticks the current one and moves on. What it reports to its
    event handler comes back as a sequence of messages. */
module Games {
  import opened Geometry
  import opened Definitions
  import opened Scores
  import opened Snakes
  import opened LevelModel
  import opened Levels
  import opened GameModel

  class Game {
    var levels: seq<LevelDefinition>
    var settings: GameSettings
    var players: seq<PlayerId>
    var levelId: Option<nat>
    var level: Level?

    /** All objects of a game. */
    ghost function Repr(): set<object>
      reads this, level, if level == null then {} else {level.board}
    {
      {this} + if level == null then {} else level.Repr()
    }

    ghost predicate Valid()
      reads this, Repr()
    {
      levelId.Some? && level != null && level.Valid()
    }

    ghost function State(): GameState
      reads this, Repr()
      requires Valid()
    {
      GameState(levels, settings, players, levelId.value, level.State())
    }

    constructor (pack: seq<LevelDefinition>, settings: GameSettings)
      ensures levels == pack && this.settings == settings && players == [] && !Started()
    {
      levels, players, levelId, level := pack, [], None, null;
      this.settings := settings;
    }

    predicate Started()
      reads this
    {
      levelId.Some?
    }

    /** Start a game. Like every method that starts a level, it fails if the level has too few starts,
        where the program throws. */
    method Start(ids: seq<PlayerId>, choice: Choice) returns (ok: bool, announced: seq<Message>)
      requires players == [] && Suits(levels, settings, ids)
      requires EnoughStarts(levels, ids, settings.startLevel) ==>
        CanStart(levels, settings, ids, settings.startLevel, choice)
      modifies this
      ensures ok <==> EnoughStarts(old(levels), ids, old(settings).startLevel)
      ensures ok ==> Valid() && fresh(level.Repr())
      ensures ok ==>
        && State() == GameModel.Started(old(levels), old(settings), ids, old(settings).startLevel, choice)
        && announced == Announcement(State().level)
    {
      hide GameModel.Started, Suits, CanStart, EnoughStarts, Announcement, Level.Valid, Level.State;
      var i := 0;
      while i < |ids|
        invariant 0 <= i <= |ids| && players == ids[..i]
        invariant levels == old(levels) && settings == old(settings)
      {
        players := players + [ids[i]];
        i := i + 1;
      }
      assert players == ids;
      ok, announced := StartLevel(settings.startLevel, choice);
    }

    method StartLevel(id: nat, choice: Choice) returns (ok: bool, announced: seq<Message>)
      requires Suits(levels, settings, players)
      requires EnoughStarts(levels, players, id) ==> CanStart(levels, settings, players, id, choice)
      modifies this`level, this`levelId
      ensures ok <==> EnoughStarts(levels, players, id)
      ensures ok ==> Valid() && fresh(level.Repr())
      ensures ok ==>
        State() == GameModel.Started(levels, settings, players, id, choice) && announced == Announcement(State().level)
      ensures !ok ==> level == old(level) && levelId == old(levelId)
    {
      hide Level.Repr, Level.Valid, FirstOfLevel, StartOfLevel, Realised, LevelState.Placeable, AnyHas,
           LevelDefinition.IsWall;
      var realId := if id < |levels| - 1 then id else |levels| - 1;
      var def := Realise(levels[realId], choice.draw);
      RealisedWalls(levels[realId], choice.draw, Point(0, 0));
      announced := [LevelStart(def)];
      var next := Level.StartWithNumber(settings, def, players, choice.corners);
      if next == null {
        return false, announced;
      }
      level := next;
      announced := announced + [NewNumber(level.number)];
      levelId := Some(id);
      return true, announced;
    }

    method Tick(scorer: ScoreTracker, moves: Moves, choice: Choice)
        returns (ok: bool, result: TickResult, announced: seq<Message>)
      requires Valid() && Tickable(State(), scorer.Board()) && Supplies(choice, State(), moves, scorer.Board())
      modifies this, level`number, level.snakes, level.board.states, scorer
      ensures ok <==> Fits(old(State()), moves, old(scorer.Board()))
      ensures ok ==> Valid()
      ensures ok ==>
        if LevelAfter(old(levelId.value), result).Some? then fresh(level.Repr())
        else level == old(level) && level.Repr() == old(level.Repr())
      ensures ok ==>
        Outcomes(old(State()), moves, old(scorer.Board()), choice, State(), scorer.Board(), result, announced)
    {
      ghost var g, sb := State(), scorer.Board();
      TickCanRun(g, moves, sb, choice);
      hide Tickable, Serves, Supplies, Fits, EnoughStarts, Progressed, TickedScores, ProgressedResult, Ticked,
           AsksForNumber, GameModel.Started, Suits, CanStart, LevelState.Ready, LevelState.NumberFits,
           LevelState.Scorable, LevelState.Placeable, Level.State, Level.Valid, Level.Repr, ScoreTracker.Board,
           Announcement, Outcomes;
      result, announced := TickLevel(scorer, moves, choice);
      ok, announced := MoveOn(result, choice, announced);
      if ok {
        FittingTickIsServed(g, moves, sb, choice);
        TickInTwoSteps(g, moves, sb, choice, State(), announced);
      }
    }

    /** Start the level over after a death, or the next one when it is complete. */
    method MoveOn(result: TickResult, choice: Choice, before: seq<Message>) returns (ok: bool, announced: seq<Message>)
      requires Valid() && Suits(State().levels, State().settings, State().players)
      requires
        var g, next := State(), LevelAfter(State().levelId, result);
        next.Some? && EnoughStarts(g.levels, g.players, next.value) ==>
          CanStart(g.levels, g.settings, g.players, next.value, choice)
      modifies this`level, this`levelId
      ensures
        var g, next := old(State()), LevelAfter(old(State()).levelId, result);
        ok <==> next.None? || EnoughStarts(g.levels, g.players, next.value)
      ensures ok ==> Valid()
      ensures ok ==>
        var g := old(State());
        match LevelAfter(g.levelId, result)
        case Some(next) =>
          && State() == GameModel.Started(g.levels, g.settings, g.players, next, choice)
          && fresh(level.Repr()) && announced == Announcement(State().level)
        case None => level == old(level) && State() == g && announced == before
    {
      hide Suits, CanStart, EnoughStarts, GameModel.Started, Announcement, Level.State, Level.Valid;
      ok, announced := true, before;
      match result {
        case Dead =>
          ok, announced := StartLevel(levelId.value, choice);
        case AdvanceLevel =>
          ok, announced := StartLevel(levelId.value + 1, choice);
        case _ =>
      }
    }

    /** Tick the current level and announce the number it may have placed. */
    method TickLevel(scorer: ScoreTracker, moves: Moves, choice: Choice)
        returns (result: TickResult, announced: seq<Message>)
      requires Valid() && Tickable(State(), scorer.Board())
      requires AsksForNumber(State().level, moves, scorer.Board()) ==>
        Ticked(State().settings, State().level, moves).Placeable(choice.corners)
      modifies level`number, level.snakes, level.board.states, scorer
      ensures Valid() && level == old(level) && level.Repr() == old(level.Repr())
      ensures State()
           == old(State().(level := Progressed(State().settings, State().level, moves, scorer.Board(),
             choice.corners)))
      ensures scorer.Board() == old(TickedScores(State().settings, State().level, moves, scorer.Board()))
      ensures result == old(ProgressedResult(State().level, moves, scorer.Board()))
      ensures announced == if old(AsksForNumber(State().level, moves, scorer.Board()))
        then [NewNumber(State().level.number)] else []
    {
      hide Progressed, TickedScores, ProgressedResult, Ticked, AsksForNumber, Suits, Level.State, Level.Valid,
           LevelState.Ready, LevelState.NumberFits, LevelState.Scorable, LevelState.Placeable;
      var number;
      result, number := level.TickAndDraw(settings, scorer, moves, choice.corners);
      announced := match number case Some(n) => [NewNumber(n)] case None => [];
    }
  }
}
