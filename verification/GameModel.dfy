/** A game as a value: levels that follow one another, restarted by deaths, and what the server tells
    its clients about them. */
module GameModel {
  import opened Geometry
  import opened Definitions
  import opened Scores
  import opened HighScores
  import opened Snakes
  import opened LevelModel

  /** What comes into one tick from outside: the cells of random blocks that become wall, should a level
      start, the corners tried for the next number, and the time, should the game end. */
  datatype Choice = Choice(draw: Draw, corners: seq<Point>, now: int)

  datatype GameState = GameState(
    levels: seq<LevelDefinition>,
    settings: GameSettings,
    players: seq<PlayerId>,
    levelId: nat,
    level: LevelState)

  /** What the server sends to its clients. */
  datatype Message =
    | PlayerAdded(id: PlayerId, name: string)
    | UpdateReadiness(client: nat, ready: bool)
    | GameStart(settings: GameSettings)
    | LevelStart(def: LevelDefinition)
    | Countdown(count: nat)
    | NewNumber(number: Number)
    | TickMessage(moves: Moves)
    | GameOverMessage(report: seq<Ranked>)

  /** The definition played as level id: beyond the last level of the pack it is the last one again. */
  function DefinitionOf(levels: seq<LevelDefinition>, levelId: nat): LevelDefinition
    requires levels != []
  {
    levels[if levelId < |levels| - 1 then levelId else |levels| - 1]
  }

  /** A level pack and a start length the program is made for. */
  ghost predicate WellMade(levels: seq<LevelDefinition>, settings: GameSettings) {
    && levels != []
    && (forall i :: 0 <= i < |levels| ==> levels[i].WellFormed())
    && settings.startLength < WORD
  }

  ghost predicate Suits(levels: seq<LevelDefinition>, settings: GameSettings, players: seq<PlayerId>) {
    && WellMade(levels, settings)
    && (forall i, j :: 0 <= i < j < |players| ==> players[i] != players[j])
  }

  /** Level id has a start for every player. Without one the program throws as it sets the level up. */
  predicate EnoughStarts(levels: seq<LevelDefinition>, players: seq<PlayerId>, levelId: nat)
    requires levels != []
  {
    |players| <= |DefinitionOf(levels, levelId).starts|
  }

  /** The definition of level id after the draws for its random blocks. */
  ghost function Laid(levels: seq<LevelDefinition>, levelId: nat, choice: Choice): LevelDefinition
    requires levels != [] && DefinitionOf(levels, levelId).WellFormed()
  {
    Realised(DefinitionOf(levels, levelId), choice.draw)
  }

  /** Level id has enough starts, and the draws let it start with a number. */
  ghost predicate CanStart(levels: seq<LevelDefinition>, settings: GameSettings, players: seq<PlayerId>, levelId: nat,
                           choice: Choice)
    requires Suits(levels, settings, players)
  {
    && EnoughStarts(levels, players, levelId)
    && StartOfLevel(settings, Laid(levels, levelId, choice), players).Placeable(choice.corners)
  }

  ghost function Started(levels: seq<LevelDefinition>, settings: GameSettings, players: seq<PlayerId>, levelId: nat,
                         choice: Choice): GameState
    requires Suits(levels, settings, players) && CanStart(levels, settings, players, levelId, choice)
  {
    GameState(levels, settings, players, levelId,
              FirstOfLevel(settings, Laid(levels, levelId, choice), players, choice.corners))
  }

  /** What is announced when a level starts. */
  function Announcement(level: LevelState): seq<Message> {
    [LevelStart(level.def), NewNumber(level.number)]
  }

  // ---------------------------------------------------------------- ticks

  /** A game and scores that can be ticked. */
  ghost predicate Tickable(g: GameState, sb: ScoreBoard) {
    && Suits(g.levels, g.settings, g.players)
    && g.level.Ready() && g.level.NumberFits() && g.level.Scorable(sb)
    && g.level.def.w < WORD && g.level.def.h < WORD
  }

  /** The level that starts after a tick with some result, if one does. */
  function LevelAfter(levelId: nat, result: TickResult): Option<nat> {
    match result
    case Dead => Some(levelId)
    case AdvanceLevel => Some(levelId + 1)
    case _ => None
  }

  ghost function NextLevelId(g: GameState, moves: Moves, sb: ScoreBoard): Option<nat>
    requires g.level.Ready()
  {
    LevelAfter(g.levelId, ProgressedResult(g.level, moves, sb))
  }

  /** If the tick starts a level, the level has enough starts. */
  ghost predicate Fits(g: GameState, moves: Moves, sb: ScoreBoard)
    requires Tickable(g, sb)
  {
    NextLevelId(g, moves, sb).Some? ==> EnoughStarts(g.levels, g.players, NextLevelId(g, moves, sb).value)
  }

  /** The tick can run to its end: a level that it starts has enough starts, and the draws yield what it
      asks for, the next number or the start of a level. */
  ghost predicate Serves(choice: Choice, g: GameState, moves: Moves, sb: ScoreBoard)
    requires Tickable(g, sb)
  {
    && (AsksForNumber(g.level, moves, sb) ==> Ticked(g.settings, g.level, moves).Placeable(choice.corners))
    && (NextLevelId(g, moves, sb).Some? ==>
          CanStart(g.levels, g.settings, g.players, NextLevelId(g, moves, sb).value, choice))
  }

  /** The draws serve the tick unless it starts a level with too few starts. */
  ghost predicate Supplies(choice: Choice, g: GameState, moves: Moves, sb: ScoreBoard)
    requires Tickable(g, sb)
  {
    Fits(g, moves, sb) ==> Serves(choice, g, moves, sb)
  }

  ghost function GameTicked(g: GameState, moves: Moves, sb: ScoreBoard, choice: Choice): GameState
    requires Tickable(g, sb) && Serves(choice, g, moves, sb)
  {
    match NextLevelId(g, moves, sb)
    case Some(levelId) => Started(g.levels, g.settings, g.players, levelId, choice)
    case None => g.(level := Progressed(g.settings, g.level, moves, sb, choice.corners))
  }

  /** What Game::tick announces to the clients. The moves of the tick itself were announced before. */
  ghost function Announced(g: GameState, moves: Moves, sb: ScoreBoard, choice: Choice): seq<Message>
    requires Tickable(g, sb) && Serves(choice, g, moves, sb)
  {
    var after := GameTicked(g, moves, sb, choice);
    if NextLevelId(g, moves, sb).Some? then Announcement(after.level)
    else if AsksForNumber(g.level, moves, sb) then [NewNumber(after.level.number)]
    else []
  }

  /** What comes out of a tick: the game, the scores, the result and the announcements. */
  ghost predicate Outcomes(g: GameState, moves: Moves, sb: ScoreBoard, choice: Choice, after: GameState,
                           scores: ScoreBoard, result: TickResult, announced: seq<Message>)
    requires Tickable(g, sb) && Serves(choice, g, moves, sb)
  {
    && after == GameTicked(g, moves, sb, choice)
    && scores == TickedScores(g.settings, g.level, moves, sb)
    && result == ProgressedResult(g.level, moves, sb)
    && announced == Announced(g, moves, sb, choice)
  }

  /** What a game needs to tick its level and then to move on. */
  lemma {:induction false} TickCanRun(g: GameState, moves: Moves, sb: ScoreBoard, choice: Choice)
    requires Tickable(g, sb) && Supplies(choice, g, moves, sb)
    ensures Suits(g.levels, g.settings, g.players) && g.level.Ready()
    ensures AsksForNumber(g.level, moves, sb) ==> Ticked(g.settings, g.level, moves).Placeable(choice.corners)
    ensures
      var next := LevelAfter(g.levelId, ProgressedResult(g.level, moves, sb));
      && (Fits(g, moves, sb) <==> next.None? || EnoughStarts(g.levels, g.players, next.value))
      && (next.Some? && Fits(g, moves, sb) ==> CanStart(g.levels, g.settings, g.players, next.value, choice))
  {
    hide Started, CanStart, Suits, Progressed, Ticked, Announcement, TickedResult;
  }

  lemma {:induction false} FittingTickIsServed(g: GameState, moves: Moves, sb: ScoreBoard, choice: Choice)
    requires Tickable(g, sb) && Supplies(choice, g, moves, sb)
    requires
      var next := LevelAfter(g.levelId, ProgressedResult(g.level, moves, sb));
      next.None? || EnoughStarts(g.levels, g.players, next.value)
    ensures Fits(g, moves, sb) && Serves(choice, g, moves, sb)
  {
    hide CanStart, Suits, Ticked, ProgressedResult, EnoughStarts;
  }

  /** Ticking the level and then moving on is a tick of the game. */
  lemma {:induction false} TickInTwoSteps(g: GameState, moves: Moves, sb: ScoreBoard, choice: Choice,
                                          after: GameState, announced: seq<Message>)
    requires Tickable(g, sb) && Serves(choice, g, moves, sb)
    requires
      var result := ProgressedResult(g.level, moves, sb);
      match LevelAfter(g.levelId, result)
      case Some(next) =>
        && CanStart(g.levels, g.settings, g.players, next, choice)
        && after == Started(g.levels, g.settings, g.players, next, choice) && announced == Announcement(after.level)
      case None =>
        && (AsksForNumber(g.level, moves, sb) ==> Ticked(g.settings, g.level, moves).Placeable(choice.corners))
        && after == g.(level := Progressed(g.settings, g.level, moves, sb, choice.corners))
        && announced == if AsksForNumber(g.level, moves, sb) then [NewNumber(after.level.number)] else []
    ensures Outcomes(g, moves, sb, choice, after, TickedScores(g.settings, g.level, moves, sb),
                     ProgressedResult(g.level, moves, sb), announced)
  {
    hide Started, CanStart, Suits, Progressed, Ticked, ProgressedResult, AsksForNumber, Announcement, TickedScores,
         LevelState.Ready, LevelState.Scorable, LevelState.NumberFits, LevelState.Placeable;
  }
}
