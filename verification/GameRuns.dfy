/** Whole games: every run from the start of a game keeps the laws of score, lives, length and
    progress. A history records, next to the game, what has been eaten and how often a level was lost. */
module GameRuns {
  import opened Geometry
  import opened Definitions
  import opened Boards
  import opened Scores
  import opened Snakes
  import opened LevelModel
  import opened LevelInvariants
  import opened GameModel
  import opened GameInvariants

  /** The values each player ate in this level and in the whole game, the ticks of this level in
      which somebody ate, and the ticks of the game that cost the level. */
  datatype History = History(eatenHere: map<PlayerId, nat>, eaten: map<PlayerId, nat>, meals: nat, deaths: nat)

  datatype World = World(game: GameState, scores: ScoreBoard, history: History, over: bool)

  datatype Input = Input(moves: Moves, choice: Choice)

  function Nothing(players: seq<PlayerId>): (m: map<PlayerId, nat>)
    ensures forall id :: id in m <==> id in players
    ensures forall id :: id in m ==> m[id] == 0
  {
    map id | id in players :: 0
  }

  function Credited(m: map<PlayerId, nat>, eaters: set<PlayerId>, value: nat): (r: map<PlayerId, nat>)
    ensures r.Keys == m.Keys
  {
    map id | id in m :: m[id] + if id in eaters then value else 0
  }

  ghost function Recorded(h: History, g: GameState, moves: Moves, sb: ScoreBoard): History
    requires g.level.Ready()
  {
    var eaters := Eaters(g.level, moves);
    var ended := NextLevelId(g, moves, sb).Some?;
    History(
      if ended then Nothing(g.players) else Credited(h.eatenHere, eaters, g.level.number.value),
      Credited(h.eaten, eaters, g.level.number.value),
      if ended then 0 else h.meals + (if eaters != {} then 1 else 0),
      h.deaths + if ProgressedResult(g.level, moves, sb) == Dead then 1 else 0)
  }

  ghost predicate CanStep(w: World, i: Input) {
    !w.over && Tickable(w.game, w.scores) && Serves(i.choice, w.game, i.moves, w.scores)
  }

  ghost function Step(w: World, i: Input): World
    requires CanStep(w, i)
  {
    World(
      GameTicked(w.game, i.moves, w.scores, i.choice),
      TickedScores(w.game.settings, w.game.level, i.moves, w.scores),
      Recorded(w.history, w.game, i.moves, w.scores),
      ProgressedResult(w.game.level, i.moves, w.scores) == GameOver)
  }

  ghost function NewWorld(levels: seq<LevelDefinition>, settings: GameSettings, players: seq<PlayerId>,
                          choice: Choice): World
    requires Suits(levels, settings, players) && CanStart(levels, settings, players, settings.startLevel, choice)
  {
    World(
      Started(levels, settings, players, settings.startLevel, choice),
      FreshScores(players, settings.startLives),
      History(Nothing(players), Nothing(players), 0, 0),
      false)
  }

  ghost predicate Runs(w: World, inputs: seq<Input>)
    decreases |inputs|
  {
    hide CanStep, Step;
    inputs == [] || (CanStep(w, inputs[0]) && Runs(Step(w, inputs[0]), inputs[1..]))
  }

  ghost function After(w: World, inputs: seq<Input>): World
    requires Runs(w, inputs)
    decreases |inputs|
  {
    hide CanStep, Step;
    if inputs == [] then w else After(Step(w, inputs[0]), inputs[1..])
  }

  // ---------------------------------------------------------------- laws

  function Sum(n: nat): nat {
    if n == 0 then 0 else n + Sum(n - 1)
  }

  /** The lives left to all players. */
  function Total(players: seq<PlayerId>, lives: map<PlayerId, int>): int
    requires forall id :: id in players ==> id in lives
  {
    if players == [] then 0 else lives[players[0]] + Total(players[1..], lives)
  }

  function StartSize(settings: GameSettings): nat {
    if settings.startLength == 0 then 1 else settings.startLength
  }

  /** Lengths stay within a uint32_t even if one snake eats every number of a level. */
  predicate LengthsFit(settings: GameSettings) {
    StartSize(settings) + Sum(LAST_NUMBER) * settings.growthFactor < WORD
  }

  ghost predicate Rostered(w: World) {
    && Suits(w.game.levels, w.game.settings, w.game.players)
    && w.game.settings.startLives >= 1
    && (forall id :: id in w.scores.scores <==> id in w.game.players)
    && (forall id :: id in w.scores.lives <==> id in w.game.players)
    && (forall id :: id in w.history.eaten <==> id in w.game.players)
    && (forall id :: id in w.history.eatenHere <==> id in w.game.players)
  }

  /** Every player's score is what the player has eaten and the price of the lives lost. */
  ghost predicate ScoreLaw(w: World)
    requires Rostered(w)
  {
    forall id :: id in w.game.players ==>
      w.scores.scores[id]
      == w.history.eaten[id] + w.game.settings.deathScore * (w.game.settings.startLives - w.scores.lives[id])
  }

  /** Every level lost has cost at least one life, and the last lives are not lost that way. */
  ghost predicate LifeLaw(w: World)
    requires Rostered(w)
  {
    LivesAddUp(|w.game.players|, w.game.settings.startLives, Total(w.game.players, w.scores.lives), w.history.deaths)
  }

  predicate LivesAddUp(players: nat, startLives: int, left: int, deaths: nat) {
    deaths + left <= players * startLives && deaths <= players * (startLives - 1)
  }

  /** A snake's cells and pending growth are its start size and its growth for what it ate. */
  ghost predicate LengthLaw(settings: GameSettings, l: LevelState, eatenHere: map<PlayerId, nat>) {
    forall i :: 0 <= i < |l.snakes| ==>
      && l.snakes[i].player in eatenHere
      && |l.snakes[i].points| + l.snakes[i].pendingGrowth
      == StartSize(settings) + settings.growthFactor * eatenHere[l.snakes[i].player]
  }

  /** No player has eaten more in this level than each number before the current one once. */
  ghost predicate MealLaw(l: LevelState, eatenHere: map<PlayerId, nat>) {
    l.number.value >= 1 && forall id :: id in eatenHere ==> eatenHere[id] <= Sum(l.number.value - 1)
  }

  /** The players' snakes, in the players' order, on a level with a start for each. */
  ghost predicate Seated(g: GameState) {
    && g.levels != [] && EnoughStarts(g.levels, g.players, g.levelId)
    && |g.level.snakes| == |g.players|
    && forall i :: 0 <= i < |g.players| ==> g.level.snakes[i].player == g.players[i]
  }

  /** The game goes on: the level is sound, everybody is alive, and the number counts the meals. */
  ghost predicate InPlay(g: GameState, sb: ScoreBoard, h: History) {
    && Sound(g.level) && Seated(g)
    && (forall id :: id in g.players ==> id in sb.lives && sb.lives[id] >= 1)
    && g.level.number.value == 1 + h.meals
    && MealLaw(g.level, h.eatenHere)
    && (LengthsFit(g.settings) ==> LengthLaw(g.settings, g.level, h.eatenHere))
  }

  /** A definition laid out: of the size and with the starts of the original, with all its walls, and with no
      other walls than in its random blocks. */
  ghost predicate Realises(def: LevelDefinition, original: LevelDefinition) {
    && def.w == original.w && def.h == original.h && def.starts == original.starts && def.randomBlocks == []
    && (forall p :: original.IsWall(p) ==> def.IsWall(p))
    && (forall p :: def.IsWall(p) ==> original.IsWall(p) || AnyHas(original.randomBlocks, p))
  }

  /** The level being played is the one with its id in the pack, or the last one if the pack has none. */
  ghost predicate OnItsLevel(g: GameState) {
    && g.levels != []
    && (g.levelId < |g.levels| ==> Realises(g.level.def, g.levels[g.levelId]))
    && (g.levelId >= |g.levels| ==> Realises(g.level.def, g.levels[|g.levels| - 1]))
  }

  ghost predicate Lawful(w: World) {
    && Rostered(w) && ScoreLaw(w) && LifeLaw(w) && OnItsLevel(w.game)
    && (!w.over ==> InPlay(w.game, w.scores, w.history))
  }

  lemma {:induction false} RealisedRealises(def: LevelDefinition, draw: Draw)
    requires def.WellFormed()
    ensures Realises(Realised(def, draw), def)
  {
    forall p
      ensures def.IsWall(p) ==> Realised(def, draw).IsWall(p)
      ensures Realised(def, draw).IsWall(p) ==> def.IsWall(p) || AnyHas(def.randomBlocks, p)
    {
      RealisedWalls(def, draw, p);
    }
    RealisedWalls(def, draw, Point(0, 0));
  }

  lemma {:induction false} StartedOnItsLevel(levels: seq<LevelDefinition>, settings: GameSettings,
                                             players: seq<PlayerId>, levelId: nat, choice: Choice)
    requires Suits(levels, settings, players) && CanStart(levels, settings, players, levelId, choice)
    ensures OnItsLevel(Started(levels, settings, players, levelId, choice))
  {
    hide Realises, LevelState.Placeable, Realised, LevelDefinition.WellFormed;
    RealisedRealises(DefinitionOf(levels, levelId), choice.draw);
  }

  lemma {:induction false} StepOnItsLevel(w: World, i: Input)
    requires CanStep(w, i) && OnItsLevel(w.game)
    ensures OnItsLevel(Step(w, i).game)
  {
    hide Realises, TickedScores, ProgressedResult, Ticked, LevelState.Placeable, LevelState.Ready, Suits, CanStart,
         Started, LevelState.NumberFits, LevelState.Scorable, LevelState.Drawn, Recorded;
    var g := w.game;
    var next := NextLevelId(g, i.moves, w.scores);
    if next.Some? {
      StartedOnItsLevel(g.levels, g.settings, g.players, next.value, i.choice);
    } else {
      TickableLevel(g, w.scores);
      TickedKeepsDefinition(g.settings, g.level, i.moves);
    }
  }

  lemma {:induction false} TickableLevel(g: GameState, sb: ScoreBoard)
    requires Tickable(g, sb)
    ensures g.level.Ready()
  {
  }

  // ---------------------------------------------------------------- the laws hold at the start

  lemma {:induction false} TotalOfEqual(players: seq<PlayerId>, lives: map<PlayerId, int>, n: int)
    requires forall id :: id in players ==> id in lives && lives[id] == n
    ensures Total(players, lives) == |players| * n
  {
    if players != [] {
      TotalOfEqual(players[1..], lives, n);
    }
  }

  /** A level that has just started is seated, sound and of the right lengths. */
  lemma {:induction false} StartedInPlay(levels: seq<LevelDefinition>, settings: GameSettings, players: seq<PlayerId>,
                                         levelId: nat, choice: Choice)
    requires Suits(levels, settings, players) && CanStart(levels, settings, players, levelId, choice)
    ensures
      var g := Started(levels, settings, players, levelId, choice);
      && Sound(g.level) && Seated(g) && g.level.number.value == 1
      && LengthLaw(settings, g.level, Nothing(players)) && MealLaw(g.level, Nothing(players))
  {
    hide Sound, LevelState.Placeable, FirstOfLevel, Realised, LevelDefinition.IsWall, AnyHas;
    var def := DefinitionOf(levels, levelId);
    RealisedWalls(def, choice.draw, Point(0, 0));
    FirstIsSound(settings, Realised(def, choice.draw), players, choice.corners);
  }

  lemma {:induction false} NewWorldLawful(levels: seq<LevelDefinition>, settings: GameSettings,
                                          players: seq<PlayerId>, choice: Choice)
    requires Suits(levels, settings, players) && CanStart(levels, settings, players, settings.startLevel, choice)
    requires settings.startLives >= 1
    ensures Lawful(NewWorld(levels, settings, players, choice))
  {
    hide Sound, LengthLaw, MealLaw, CanStart, Started, LengthsFit, Suits, Seated, Total, OnItsLevel;
    var w := NewWorld(levels, settings, players, choice);
    StartedOnItsLevel(levels, settings, players, settings.startLevel, choice);
    StartedInPlay(levels, settings, players, settings.startLevel, choice);
    assert w.game.players == players && w.game.settings == settings && w.game.levels == levels by {
      StartedFields(levels, settings, players, settings.startLevel, choice);
    }
    TotalOfEqual(players, w.scores.lives, settings.startLives);
    assert |players| * (settings.startLives - 1) >= 0;
  }

  lemma {:induction false} StartedFields(levels: seq<LevelDefinition>, settings: GameSettings, players: seq<PlayerId>,
                                         levelId: nat, choice: Choice)
    requires Suits(levels, settings, players) && CanStart(levels, settings, players, levelId, choice)
    ensures
      var g := Started(levels, settings, players, levelId, choice);
      g.levels == levels && g.settings == settings && g.players == players && g.levelId == levelId
  {
  }

  // ---------------------------------------------------------------- every tick keeps the laws

  lemma {:induction false} SettledScoreLaw(w: World, eaters: set<PlayerId>, casualties: set<PlayerId>, value: nat)
    requires Rostered(w) && ScoreLaw(w)
    ensures
      var sb := Settled(w.game.settings, value, w.scores, eaters, casualties);
      var eaten := Credited(w.history.eaten, eaters, value);
      forall id :: id in w.game.players ==>
        sb.scores[id] == eaten[id] + w.game.settings.deathScore * (w.game.settings.startLives - sb.lives[id])
  {
    hide Suits;
    var sb := Settled(w.game.settings, value, w.scores, eaters, casualties);
    var eaten := Credited(w.history.eaten, eaters, value);
    var d, n := w.game.settings.deathScore, w.game.settings.startLives;
    forall id | id in w.game.players
      ensures sb.scores[id] == eaten[id] + d * (n - sb.lives[id])
    {
      OneLifeLess(d, n, w.scores.lives[id]);
    }
  }

  lemma {:induction false} OneLifeLess(d: int, n: int, lives: int)
    ensures d * (n - (lives - 1)) == d * (n - lives) + d
  {
  }

  /** Lives never increase, and each casualty loses one. */
  lemma {:induction false} TotalDrops(players: seq<PlayerId>, lives: map<PlayerId, int>, after: map<PlayerId, int>,
                                      casualties: set<PlayerId>)
    requires forall id :: id in players ==>
      id in lives && id in after && after[id] == lives[id] - if id in casualties then 1 else 0
    ensures Total(players, after) <= Total(players, lives)
    ensures (exists id :: id in players && id in casualties) ==> Total(players, after) < Total(players, lives)
  {
    if players != [] {
      TotalDrops(players[1..], lives, after, casualties);
    }
  }

  lemma {:induction false} CasualtiesPlay(g: GameState, moves: Moves)
    requires g.level.Ready() && Seated(g)
    ensures forall id :: id in Casualties(g.level, moves) ==> id in g.players
  {
  }

  /** A tick costs the level only if somebody dies in it. */
  lemma {:induction false} DeadlyResult(l: LevelState, moves: Moves, sb: ScoreBoard)
    requires l.Ready()
    ensures ProgressedResult(l, moves, sb) in {Dead, GameOver} ==> Casualties(l, moves) != {}
    ensures ProgressedResult(l, moves, sb) !in {Dead, GameOver} ==> Casualties(l, moves) == {}
    ensures ProgressedResult(l, moves, sb) == GameOver <==>
      exists id :: id in Casualties(l, moves) && id in sb.lives && sb.lives[id] == 1
    ensures ProgressedResult(l, moves, sb) == AdvanceLevel <==>
      Casualties(l, moves) == {} && Eaters(l, moves) != {} && l.number.value == LAST_NUMBER
  {
  }

  lemma {:induction false} StepLifeLaw(w: World, i: Input)
    requires CanStep(w, i) && Rostered(w) && LifeLaw(w) && Seated(w.game)
    ensures
      var lives := TickedScores(w.game.settings, w.game.level, i.moves, w.scores).lives;
      var deaths := Recorded(w.history, w.game, i.moves, w.scores).deaths;
      && deaths + Total(w.game.players, lives) <= w.history.deaths + Total(w.game.players, w.scores.lives)
  {
    var casualties := Casualties(w.game.level, i.moves);
    var after := TickedScores(w.game.settings, w.game.level, i.moves, w.scores);
    hide LivesAddUp, Casualties, Eaters, ProgressedResult, LevelState.Ready, Serves;
    TotalDrops(w.game.players, w.scores.lives, after.lives, casualties);
    CasualtiesPlay(w.game, i.moves);
    DeadlyResult(w.game.level, i.moves, w.scores);
  }

  /** Unless the game is over, everybody still has a life. */
  lemma {:induction false} LivesLeft(g: GameState, sb: ScoreBoard, moves: Moves)
    requires g.level.Ready() && forall id :: id in g.players ==> id in sb.lives && sb.lives[id] >= 1
    requires ProgressedResult(g.level, moves, sb) != GameOver
    ensures
      var after := TickedScores(g.settings, g.level, moves, sb);
      forall id :: id in g.players ==> id in after.lives && after.lives[id] >= 1
  {
    DeadlyResult(g.level, moves, sb);
  }

  lemma {:induction false} GrowthShared(growth: nat, a: nat, b: nat)
    ensures growth * (a + b) == growth * a + b * growth
  {
  }

  lemma {:induction false} SumGrows(a: nat, b: nat)
    requires a <= b
    ensures Sum(a) <= Sum(b)
    decreases b
  {
    if a < b {
      SumGrows(a, b - 1);
    }
  }

  /** The pending growth of a snake that has eaten at most every number before this one, and eats
      this one, stays a uint32_t. */
  lemma {:induction false} GrowthFits(settings: GameSettings, value: nat, eaten: nat)
    requires LengthsFit(settings) && 1 <= value <= LAST_NUMBER && eaten <= Sum(value - 1)
    ensures StartSize(settings) + settings.growthFactor * eaten + value * settings.growthFactor < WORD
  {
    SumGrows(value, LAST_NUMBER);
    assert eaten + value <= Sum(value);
    hide Sum;
    GrowthShared(settings.growthFactor, eaten, value);
    GrowthGrows(settings.growthFactor, eaten + value, Sum(LAST_NUMBER));
  }

  lemma {:induction false} GrowthGrows(growth: nat, a: nat, b: nat)
    requires a <= b
    ensures growth * a <= b * growth
  {
  }

  /** One tick of the length law for one surviving snake. */
  lemma {:induction false} LengthLawStep(settings: GameSettings, l: LevelState, moves: Moves,
                                         eatenHere: map<PlayerId, nat>, i: nat)
    requires l.Ready() && LengthsFit(settings) && LengthLaw(settings, l, eatenHere) && MealLaw(l, eatenHere)
    requires 1 <= l.number.value <= LAST_NUMBER && i < |l.snakes| && Casualties(l, moves) == {}
    ensures
      var s := l.snakes[i];
      var t := Ticked(settings, l, moves);
      var eaten := Credited(eatenHere, Eaters(l, moves), l.number.value);
      && s.player in eaten && i < |t.snakes|
      && |t.snakes[i].points| + t.snakes[i].pendingGrowth
      == StartSize(settings) + settings.growthFactor * eaten[s.player]
  {
    hide Ticked, Eaters, LevelState.Ready;
    var s := l.snakes[i];
    var value, growth, eaten := l.number.value, settings.growthFactor, eatenHere[s.player];
    GrowthFits(settings, value, eaten);
    NobodyDies(l, moves, i);
    LengthAfterTick(settings, l, moves, i);
    GrowthShared(growth, eaten, value);
  }

  lemma {:induction false} ProgressKeepsLengths(settings: GameSettings, l: LevelState, moves: Moves, sb: ScoreBoard,
                                                corners: seq<Point>, eatenHere: map<PlayerId, nat>)
    requires Sound(l) && l.Scorable(sb) && Casualties(l, moves) == {}
    requires AsksForNumber(l, moves, sb) ==> Ticked(settings, l, moves).Placeable(corners)
    requires ProgressedResult(l, moves, sb) != AdvanceLevel
    requires LengthsFit(settings) && LengthLaw(settings, l, eatenHere) && MealLaw(l, eatenHere)
    ensures LengthLaw(settings, Progressed(settings, l, moves, sb, corners),
                      Credited(eatenHere, Eaters(l, moves), l.number.value))
  {
    hide Sound, Progressed, Ticked, LevelState.Ready, LevelState.Scorable, LevelState.Placeable, Eaters, Casualties,
         AsksForNumber, ProgressedResult;
    SoundLevelCanTick(l);
    ProgressIsSound(settings, l, moves, sb, corners);
    var t := Progressed(settings, l, moves, sb, corners);
    var eaten := Credited(eatenHere, Eaters(l, moves), l.number.value);
    forall k | 0 <= k < |t.snakes|
      ensures t.snakes[k].player in eaten
      ensures |t.snakes[k].points| + t.snakes[k].pendingGrowth
           == StartSize(settings) + settings.growthFactor * eaten[t.snakes[k].player]
    {
      LengthLawStep(settings, l, moves, eatenHere, k);
    }
  }

  /** A player has eaten each number of a level at most once. */
  lemma {:induction false} NothingEatenTwice(eatenHere: map<PlayerId, nat>, eaters: set<PlayerId>, value: nat,
                                             next: nat)
    requires value >= 1 && next == value + if eaters != {} then 1 else 0
    requires forall id :: id in eatenHere ==> eatenHere[id] <= Sum(value - 1)
    ensures forall id :: id in eatenHere ==> Credited(eatenHere, eaters, value)[id] <= Sum(next - 1)
  {
  }

  lemma {:induction false} TickWithinLevel(g: GameState, moves: Moves, sb: ScoreBoard, choice: Choice, h: History)
    requires Tickable(g, sb) && Serves(choice, g, moves, sb) && InPlay(g, sb, h)
    requires forall id :: id in h.eatenHere <==> id in g.players
    requires NextLevelId(g, moves, sb).None? && ProgressedResult(g.level, moves, sb) != GameOver
    ensures InPlay(g.(level := Progressed(g.settings, g.level, moves, sb, choice.corners)),
                   TickedScores(g.settings, g.level, moves, sb), Recorded(h, g, moves, sb))
  {
    hide Sound, LengthLaw, Progressed, TickedScores, Eaters, Casualties, ProgressedResult, LevelState.Ready,
         LengthsFit, LevelState.Scorable, LevelState.Placeable, Ticked, AsksForNumber, Suits, CanStart,
         LevelState.NumberFits;
    DeadlyResult(g.level, moves, sb);
    LivesLeft(g, sb, moves);
    ProgressIsSound(g.settings, g.level, moves, sb, choice.corners);
    NothingEatenTwice(h.eatenHere, Eaters(g.level, moves), g.level.number.value,
      Progressed(g.settings, g.level, moves, sb, choice.corners).number.value);
    if LengthsFit(g.settings) {
      ProgressKeepsLengths(g.settings, g.level, moves, sb, choice.corners, h.eatenHere);
    }
  }

  lemma {:induction false} TickToNextLevel(g: GameState, moves: Moves, sb: ScoreBoard, choice: Choice, h: History)
    requires Tickable(g, sb) && Serves(choice, g, moves, sb) && InPlay(g, sb, h)
    requires NextLevelId(g, moves, sb).Some?
    ensures InPlay(Started(g.levels, g.settings, g.players, NextLevelId(g, moves, sb).value, choice),
                   TickedScores(g.settings, g.level, moves, sb), Recorded(h, g, moves, sb))
  {
    LivesLeft(g, sb, moves);
    var next := NextLevelId(g, moves, sb).value;
    hide Sound, LengthLaw, TickedScores, Eaters, ProgressedResult, LevelState.Ready, CanStart, Suits, Started,
         LevelState.Scorable, LevelState.Placeable, Ticked, AsksForNumber, LevelState.NumberFits;
    StartedInPlay(g.levels, g.settings, g.players, next, choice);
    StartedFields(g.levels, g.settings, g.players, next, choice);
  }

  lemma {:induction false} StepRostered(w: World, i: Input)
    requires CanStep(w, i) && Rostered(w)
    ensures Rostered(Step(w, i))
    ensures Step(w, i).game.players == w.game.players && Step(w, i).game.settings == w.game.settings
    ensures Step(w, i).game.levels == w.game.levels
  {
    var g := w.game;
    var next := NextLevelId(g, i.moves, w.scores);
    if next.Some? {
      StartedFields(g.levels, g.settings, g.players, next.value, i.choice);
    }
  }

  lemma {:induction false} StepInPlay(w: World, i: Input)
    requires CanStep(w, i) && Rostered(w) && InPlay(w.game, w.scores, w.history) && !Step(w, i).over
    ensures InPlay(Step(w, i).game, Step(w, i).scores, Step(w, i).history)
  {
    hide InPlay, NextLevelId, Serves, LevelState.Ready, Recorded, TickedScores, Started, Progressed;
    if NextLevelId(w.game, i.moves, w.scores).Some? {
      TickToNextLevel(w.game, i.moves, w.scores, i.choice, w.history);
    } else {
      TickWithinLevel(w.game, i.moves, w.scores, i.choice, w.history);
    }
  }

  lemma {:induction false} ScoresSettled(w: World, v: World, eaters: set<PlayerId>, casualties: set<PlayerId>,
                                         value: nat)
    requires Rostered(w) && Rostered(v) && ScoreLaw(w)
    requires v.game.players == w.game.players && v.game.settings == w.game.settings
    requires v.scores == Settled(w.game.settings, value, w.scores, eaters, casualties)
    requires v.history.eaten == Credited(w.history.eaten, eaters, value)
    ensures ScoreLaw(v)
  {
    SettledScoreLaw(w, eaters, casualties, value);
    hide Rostered, Settled, Credited;
  }

  lemma {:induction false} StepScoreLaw(w: World, i: Input)
    requires CanStep(w, i) && Rostered(w) && ScoreLaw(w)
    ensures Rostered(Step(w, i)) && ScoreLaw(Step(w, i))
  {
    StepRostered(w, i);
    StepFields(w, i);
    hide Rostered, ScoreLaw, Step, Eaters, Casualties, Settled, Credited, NextLevelId, Serves, ProgressedResult;
    ScoresSettled(w, Step(w, i), Eaters(w.game.level, i.moves), Casualties(w.game.level, i.moves),
                  w.game.level.number.value);
  }

  lemma {:induction false} TotalAtLeast(players: seq<PlayerId>, lives: map<PlayerId, int>)
    requires forall id :: id in players ==> id in lives && lives[id] >= 1
    ensures Total(players, lives) >= |players|
  {
    if players != [] {
      TotalAtLeast(players[1..], lives);
    }
  }

  /** As long as everybody is alive, the levels lost have left everybody a life. */
  lemma {:induction false} LivesStillAddUp(players: nat, startLives: int, left: int, deaths: nat, leftAfter: int,
                                           deathsAfter: nat)
    requires LivesAddUp(players, startLives, left, deaths)
    requires deathsAfter + leftAfter <= deaths + left
    requires leftAfter >= players || deathsAfter == deaths
    ensures LivesAddUp(players, startLives, leftAfter, deathsAfter)
  {
    assert players * (startLives - 1) == players * startLives - players;
  }

  lemma {:induction false} StepFields(w: World, i: Input)
    requires CanStep(w, i)
    ensures
      var v := Step(w, i);
      && v.scores == TickedScores(w.game.settings, w.game.level, i.moves, w.scores)
      && v.history == Recorded(w.history, w.game, i.moves, w.scores)
      && (v.over <==> ProgressedResult(w.game.level, i.moves, w.scores) == GameOver)
      && (v.over ==> v.history.deaths == w.history.deaths)
  {
  }

  lemma {:induction false} StepKeepsLifeLaw(w: World, i: Input)
    requires CanStep(w, i) && Rostered(w) && LifeLaw(w) && InPlay(w.game, w.scores, w.history)
    ensures Rostered(Step(w, i)) && LifeLaw(Step(w, i))
  {
    var v := Step(w, i);
    StepRostered(w, i);
    StepLifeLaw(w, i);
    StepFields(w, i);
    hide Step, TickedScores, Recorded, Tickable, Serves, Total, ProgressedResult, LivesAddUp;
    if !v.over {
      StepInPlay(w, i);
      AliveInPlay(v);
      TotalAtLeast(v.game.players, v.scores.lives);
    }
    LivesStillAddUp(|w.game.players|, w.game.settings.startLives, Total(w.game.players, w.scores.lives),
                    w.history.deaths, Total(v.game.players, v.scores.lives), v.history.deaths);
  }

  /** Every tick keeps every law. */
  lemma {:induction false} StepLawful(w: World, i: Input)
    requires CanStep(w, i) && Lawful(w)
    ensures Lawful(Step(w, i))
  {
    hide InPlay, ScoreLaw, LifeLaw, Rostered, OnItsLevel, Step, Tickable, Serves;
    StepScoreLaw(w, i);
    StepOnItsLevel(w, i);
    StepKeepsLifeLaw(w, i);
    if !Step(w, i).over {
      StepInPlay(w, i);
    }
  }

  lemma {:induction false} AliveInPlay(w: World)
    requires InPlay(w.game, w.scores, w.history)
    ensures forall id :: id in w.game.players ==> id in w.scores.lives && w.scores.lives[id] >= 1
  {
  }

  // ---------------------------------------------------------------- whole runs

  /** In every state of every run the laws hold: scores are what was eaten and the price of lives, at
      most players * (startLives - 1) ticks cost the level, and until the tick that ends the game
      everybody is alive, the level is sound, and sizes and numbers count what was eaten. */
  lemma {:induction false} RunsAreLawful(w: World, inputs: seq<Input>)
    requires Lawful(w) && Runs(w, inputs)
    ensures Lawful(After(w, inputs))
    decreases |inputs|
  {
    hide CanStep, Step, Lawful;
    if inputs != [] {
      StepLawful(w, inputs[0]);
      RunsAreLawful(Step(w, inputs[0]), inputs[1..]);
    }
  }

  /** Until the game is over, the next tick can run: every snake has a head, the scorer knows every
      player, and nobody has run out of lives. None of the assertions on the way can fail. */
  lemma {:induction false} NextTickCanRun(w: World)
    requires Lawful(w) && !w.over
    ensures Tickable(w.game, w.scores)
  {
    hide Sound, LengthLaw, MealLaw, Suits, LifeLaw, ScoreLaw, LengthsFit, LevelState.Ready, LevelState.NumberFits;
    SoundLevelCanTick(w.game.level);
  }

  lemma {:induction false} GamesAreLawful(levels: seq<LevelDefinition>, settings: GameSettings,
                                          players: seq<PlayerId>, choice: Choice, inputs: seq<Input>)
    requires Suits(levels, settings, players) && CanStart(levels, settings, players, settings.startLevel, choice)
    requires settings.startLives >= 1
    requires Runs(NewWorld(levels, settings, players, choice), inputs)
    ensures
      var w := After(NewWorld(levels, settings, players, choice), inputs);
      Lawful(w) && (!w.over ==> Tickable(w.game, w.scores))
  {
    var first := NewWorld(levels, settings, players, choice);
    NewWorldLawful(levels, settings, players, choice);
    RunsAreLawful(first, inputs);
    hide Lawful, Tickable, NewWorld;
    if !After(first, inputs).over {
      NextTickCanRun(After(first, inputs));
    }
  }

  lemma {:induction false} RunsKeepThePlayers(w: World, inputs: seq<Input>)
    requires Lawful(w) && Runs(w, inputs)
    ensures After(w, inputs).game.players == w.game.players && After(w, inputs).game.settings == w.game.settings
    ensures After(w, inputs).game.levels == w.game.levels
    decreases |inputs|
  {
    hide CanStep, Step, ScoreLaw, LifeLaw, InPlay, Rostered, OnItsLevel;
    if inputs != [] {
      StepRostered(w, inputs[0]);
      StepLawful(w, inputs[0]);
      RunsKeepThePlayers(Step(w, inputs[0]), inputs[1..]);
    }
  }

  lemma {:induction false} LawfulScores(w: World, id: PlayerId)
    requires Lawful(w) && id in w.game.players
    ensures id in w.scores.scores && id in w.scores.lives && id in w.history.eaten
    ensures w.scores.scores[id]
         == w.history.eaten[id] + w.game.settings.deathScore * (w.game.settings.startLives - w.scores.lives[id])
    ensures !w.over ==> w.scores.lives[id] >= 1
  {
    hide LifeLaw, Suits, Sound, LengthsFit, LengthLaw, MealLaw, Seated;
  }

  lemma {:induction false} LawfulCounts(w: World)
    requires Lawful(w)
    ensures w.history.deaths <= |w.game.players| * (w.game.settings.startLives - 1)
    ensures !w.over ==>
      1 <= w.game.level.number.value == 1 + w.history.meals <= LAST_NUMBER && |w.game.level.snakes| == |w.game.players|
  {
    hide ScoreLaw, Suits, LengthsFit, LengthLaw, MealLaw, Total, Sound;
    if !w.over {
      SoundLevelCanTick(w.game.level);
    }
  }

  lemma {:induction false} LawfulSizes(w: World, i: nat)
    requires Lawful(w) && !w.over && LengthsFit(w.game.settings) && i < |w.game.players|
    ensures
      var g, eaten := w.game, w.history.eatenHere;
      && i < |g.level.snakes| && g.level.snakes[i].player == g.players[i] && g.players[i] in eaten
      && |g.level.snakes[i].points| + g.level.snakes[i].pendingGrowth
      == StartSize(g.settings) + g.settings.growthFactor * eaten[g.players[i]]
  {
    hide ScoreLaw, LifeLaw, Suits, LengthsFit, MealLaw, Sound;
  }

  /** What the laws say about one player. */
  ghost predicate Spelled(w: World, settings: GameSettings, players: seq<PlayerId>, i: nat)
    requires i < |players|
  {
    var id, sb, h, l := players[i], w.scores, w.history, w.game.level;
    && id in sb.scores && id in sb.lives && id in h.eaten
    && sb.scores[id] == h.eaten[id] + settings.deathScore * (settings.startLives - sb.lives[id])
    && h.deaths <= |players| * (settings.startLives - 1)
    && (!w.over ==>
          && sb.lives[id] >= 1
          && 1 <= l.number.value == 1 + h.meals <= LAST_NUMBER
          && |l.snakes| == |players|
          && (LengthsFit(settings) ==>
                && l.snakes[i].player == id && id in h.eatenHere
                && |l.snakes[i].points| + l.snakes[i].pendingGrowth
                == StartSize(settings) + settings.growthFactor * h.eatenHere[id]))
  }

  lemma {:induction false} LawsSpelled(w: World, i: nat)
    requires Lawful(w) && i < |w.game.players|
    ensures Spelled(w, w.game.settings, w.game.players, i)
  {
    hide Lawful, LengthsFit;
    LawfulScores(w, w.game.players[i]);
    LawfulCounts(w);
    if !w.over && LengthsFit(w.game.settings) {
      LawfulSizes(w, i);
    }
  }

  /** The laws, spelled out for every state of every game: a score is what was eaten in the whole game and
      the price of the lives lost; at most players * (startLives - 1) ticks cost the level; and until the
      game is over everybody is alive, the number is one more than the ticks of this level in which
      somebody ate, and a snake's size is its start size and its growth for what it ate in this level,
      provided that this can never leave the range of its type. */
  lemma {:induction false} LawsOfAGame(levels: seq<LevelDefinition>, settings: GameSettings, players: seq<PlayerId>,
                                       choice: Choice, inputs: seq<Input>, i: nat)
    requires Suits(levels, settings, players) && CanStart(levels, settings, players, settings.startLevel, choice)
    requires settings.startLives >= 1 && i < |players|
    requires Runs(NewWorld(levels, settings, players, choice), inputs)
    ensures Spelled(After(NewWorld(levels, settings, players, choice), inputs), settings, players, i)
  {
    var first := NewWorld(levels, settings, players, choice);
    NewWorldLawful(levels, settings, players, choice);
    StartedFields(levels, settings, players, settings.startLevel, choice);
    hide Runs, After, Suits, CanStart, Started, Lawful, Spelled;
    RunsAreLawful(first, inputs);
    RunsKeepThePlayers(first, inputs);
    LawsSpelled(After(first, inputs), i);
  }

  // ---------------------------------------------------------------- every reachable level

  /** In every state of every game, until it is over: off the start cells, the board shows a snake
      exactly where some body lies, no two parts of bodies share a cell, and the board shows the
      number exactly where it is; a start cell that shows a snake lies in some body. */
  lemma {:induction false} BoardsAgree(levels: seq<LevelDefinition>, settings: GameSettings, players: seq<PlayerId>,
                                       choice: Choice, inputs: seq<Input>)
    requires Suits(levels, settings, players) && CanStart(levels, settings, players, settings.startLevel, choice)
    requires settings.startLives >= 1
    requires Runs(NewWorld(levels, settings, players, choice), inputs)
    requires !After(NewWorld(levels, settings, players, choice), inputs).over
    ensures
      var l := After(NewWorld(levels, settings, players, choice), inputs).game.level;
      && (forall p :: p in l.grid && !IsStart(l, p) ==> (l.grid[p] == SnakeCell <==> Covered(l.snakes, p)))
      && (forall p, i, k, j, m :: Lies(l.snakes, i, k, p) && Lies(l.snakes, j, m, p) && !IsStart(l, p) ==>
            i == j && k == m)
      && (forall p :: p in l.grid && !IsStart(l, p) ==> (l.grid[p] == NumberCell <==> l.number.position.Has(p)))
      && (forall p :: p in l.grid && l.grid[p] == SnakeCell ==> Covered(l.snakes, p))
  {
    GamesAreLawful(levels, settings, players, choice, inputs);
    hide NewWorld, Runs, After, LevelState.Ready, AllHangTogether, Rostered, ScoreLaw, LifeLaw, LengthLaw, MealLaw,
         Seated;
  }

  /** In every state of every game, until it is over: if no snake has started on a wall, then the walls
      are those of the definition, every body is inside the border, its cells are one step apart, and
      no step of a snake wraps round, wherever it turns. */
  lemma {:induction false} BodiesStayInside(levels: seq<LevelDefinition>, settings: GameSettings,
                                            players: seq<PlayerId>, choice: Choice, inputs: seq<Input>, i: nat)
    requires Suits(levels, settings, players) && CanStart(levels, settings, players, settings.startLevel, choice)
    requires settings.startLives >= 1
    requires Runs(NewWorld(levels, settings, players, choice), inputs)
    requires !After(NewWorld(levels, settings, players, choice), inputs).over
    requires i < |After(NewWorld(levels, settings, players, choice), inputs).game.level.snakes|
    requires StartsClear(After(NewWorld(levels, settings, players, choice), inputs).game.level)
    ensures
      var l := After(NewWorld(levels, settings, players, choice), inputs).game.level;
      var body := l.snakes[i].points;
      && body != []
      && (forall p :: p in l.grid ==> (l.grid[p] == WallCell <==> l.def.IsWall(p)))
      && (forall k :: 0 <= k < |body| ==> Interior(body[k], l.def.w, l.def.h))
      && (forall k :: 0 < k < |body| ==> UnitStep(body[k - 1], body[k]))
      && (forall d: Direction :: UnitStep(body[0], Adjacent(body[0], d, l.def.w, l.def.h)))
  {
    GamesAreLawful(levels, settings, players, choice, inputs);
    hide NewWorld, Runs, After, Agreement, Rostered, ScoreLaw, LifeLaw, LengthLaw, MealLaw, Seated, Interior,
         UnitStep, Adjacent;
    NoWrapRound(After(NewWorld(levels, settings, players, choice), inputs).game.level, i);
  }

  /** In every state of every game, until it is over, and on boards of at least 3 by 3 cells: no snake
      is about to enter its own neck, whatever turns the players ask for. */
  lemma {:induction false} NecksAreSafe(levels: seq<LevelDefinition>, settings: GameSettings, players: seq<PlayerId>,
                                        choice: Choice, inputs: seq<Input>, moves: Moves, i: nat)
    requires Suits(levels, settings, players) && CanStart(levels, settings, players, settings.startLevel, choice)
    requires settings.startLives >= 1
    requires Runs(NewWorld(levels, settings, players, choice), inputs)
    requires !After(NewWorld(levels, settings, players, choice), inputs).over
    requires i < |After(NewWorld(levels, settings, players, choice), inputs).game.level.snakes|
    ensures
      var l := After(NewWorld(levels, settings, players, choice), inputs).game.level;
      && l.snakes[i].points != [] && OnBoard(l.snakes[i].points[0], l.def.w, l.def.h)
      && (l.def.w >= 3 && l.def.h >= 3 ==> AvoidsNeck(l.snakes[i], moves, l.def.w, l.def.h))
  {
    GamesAreLawful(levels, settings, players, choice, inputs);
    hide NewWorld, Runs, After, Agreement, Rostered, ScoreLaw, LifeLaw, LengthLaw, MealLaw, Seated, Redirected,
         HangsTogether, WallsStand, NumberShown, AvoidsNeck;
    var l := After(NewWorld(levels, settings, players, choice), inputs).game.level;
    if l.def.w >= 3 && l.def.h >= 3 {
      NeverIntoTheNeck(l.snakes[i], moves, l.def.w, l.def.h);
    }
  }

  /** The level changes to the next one exactly in the ninth tick of a level in which somebody eats, if
      nobody dies in it; a tick that ends in a death restarts the same level. */
  lemma {:induction false} NinthMeal(w: World, i: Input)
    requires CanStep(w, i) && Lawful(w)
    ensures Step(w, i).game.levelId
         == w.game.levelId
            + if w.history.meals == 8 && Eaters(w.game.level, i.moves) != {}
              && Casualties(w.game.level, i.moves) == {}
              then 1 else 0
  {
    hide Sound, Rostered, ScoreLaw, LifeLaw, Eaters, Casualties, ProgressedResult, Started, Progressed, AsksForNumber,
         LevelState.Ready, LevelState.Placeable, Ticked, LevelState.NumberFits, LevelState.Scorable, LengthLaw,
         MealLaw, LengthsFit, TickedScores, Recorded, Suits, CanStart;
    var g := w.game;
    DeadlyResult(g.level, i.moves, w.scores);
    var next := NextLevelId(g, i.moves, w.scores);
    if next.Some? {
      StartedFields(g.levels, g.settings, g.players, next.value, i.choice);
    }
  }

  /** How many of the ticks complete a level: the ninth of a level in which somebody eats, if nobody dies. */
  ghost function Completions(w: World, inputs: seq<Input>): nat
    requires Runs(w, inputs)
    decreases |inputs|
  {
    hide CanStep, Step;
    if inputs == [] then 0
    else
      (if FinishesLevel(w, inputs[0]) then 1 else 0) + Completions(Step(w, inputs[0]), inputs[1..])
  }

  ghost predicate FinishesLevel(w: World, i: Input) {
    && w.game.level.Ready() && w.history.meals == 8
    && Eaters(w.game.level, i.moves) != {} && Casualties(w.game.level, i.moves) == {}
  }

  lemma {:induction false} LevelsCounted(w: World, inputs: seq<Input>)
    requires Lawful(w) && Runs(w, inputs)
    ensures After(w, inputs).game.levelId == w.game.levelId + Completions(w, inputs)
    decreases |inputs|
  {
    if inputs != [] {
      var i := inputs[0];
      NinthMeal(w, i);
      StepLawful(w, i);
      TickableLevel(w.game, w.scores);
      hide CanStep, Step, Lawful, LevelState.Ready, Eaters, Casualties;
      LevelsCounted(Step(w, i), inputs[1..]);
    }
  }

  /** In every state of every game, the level has the id of the start level and one more for every level
      completed; and what is played is the level with that id, or the last of the pack if there is none. */
  lemma {:induction false} LevelsPlayed(levels: seq<LevelDefinition>, settings: GameSettings, players: seq<PlayerId>,
                                        choice: Choice, inputs: seq<Input>)
    requires Suits(levels, settings, players) && CanStart(levels, settings, players, settings.startLevel, choice)
    requires settings.startLives >= 1
    requires Runs(NewWorld(levels, settings, players, choice), inputs)
    ensures
      var first := NewWorld(levels, settings, players, choice);
      var g := After(first, inputs).game;
      && levels != [] && g.levels == levels
      && g.levelId == settings.startLevel + Completions(first, inputs)
      && (g.levelId < |levels| ==> Realises(g.level.def, levels[g.levelId]))
      && (g.levelId >= |levels| ==> Realises(g.level.def, levels[|levels| - 1]))
  {
    var first := NewWorld(levels, settings, players, choice);
    NewWorldLawful(levels, settings, players, choice);
    StartedFields(levels, settings, players, settings.startLevel, choice);
    RunsAreLawful(first, inputs);
    hide Runs, After, Suits, CanStart, Started, Rostered, ScoreLaw, LifeLaw, InPlay, Realises, Completions;
    RunsKeepThePlayers(first, inputs);
    LevelsCounted(first, inputs);
  }

  /** Every player's snake is back on its start, a single cell long, and the first number is there. */
  ghost predicate Afresh(g: GameState) {
    && |g.level.snakes| == |g.players| <= |g.level.def.starts|
    && (forall i :: 0 <= i < |g.players| ==>
          && g.level.snakes[i].player == g.players[i]
          && g.level.snakes[i].points == [g.level.def.starts[i].point]
          && g.level.snakes[i].direction == g.level.def.starts[i].direction
          && g.level.snakes[i].pendingGrowth + 1 == StartSize(g.settings))
    && g.level.number.value == 1
  }

  lemma {:induction false} StartedAfresh(levels: seq<LevelDefinition>, settings: GameSettings, players: seq<PlayerId>,
                                         levelId: nat, choice: Choice)
    requires Suits(levels, settings, players) && CanStart(levels, settings, players, levelId, choice)
    ensures Afresh(Started(levels, settings, players, levelId, choice))
  {
    hide InitialGrid, LevelState.Placeable;
  }

  /** The ninth meal of a level puts the next level of the pack on the board, if there is one; a death that
      does not end the game puts the same level on the board again. Either way all snakes start afresh. */
  lemma {:induction false} WhatIsPlayedNext(w: World, i: Input)
    requires CanStep(w, i) && Lawful(w)
    ensures
      var k, g := w.game.levelId, Step(w, i).game;
      && (FinishesLevel(w, i) ==> Afresh(g))
      && (FinishesLevel(w, i) && k + 1 < |w.game.levels| ==> Realises(g.level.def, w.game.levels[k + 1]))
      && (Casualties(w.game.level, i.moves) != {} && !Step(w, i).over ==> Afresh(g))
      && (Casualties(w.game.level, i.moves) != {} && k < |w.game.levels| ==>
            Realises(g.level.def, w.game.levels[k]))
  {
    NinthMeal(w, i);
    StepLawful(w, i);
    StepRostered(w, i);
    DeadlyResult(w.game.level, i.moves, w.scores);
    LawfulNumber(w);
    var next := NextLevelId(w.game, i.moves, w.scores);
    if next.Some? {
      StartedAfresh(w.game.levels, w.game.settings, w.game.players, next.value, i.choice);
    }
    hide Rostered, ScoreLaw, LifeLaw, InPlay, Realises, Eaters, Casualties, ProgressedResult, Started, Progressed,
         AsksForNumber, LevelState.Ready, LevelState.Placeable, Ticked, LevelState.NumberFits, LevelState.Scorable,
         TickedScores, Recorded, Suits, CanStart, Afresh;
  }

  lemma {:induction false} LawfulNumber(w: World)
    requires Lawful(w) && !w.over
    ensures w.game.level.number.value == 1 + w.history.meals
  {
    hide Sound, Rostered, ScoreLaw, LifeLaw, LengthLaw, MealLaw, LengthsFit;
  }

  /** A player never eats more than 45 in one level: at most 36 before the last number, and that one. */
  lemma {:induction false} MostEatenInALevel(w: World, i: Input, id: PlayerId)
    requires CanStep(w, i) && Lawful(w) && id in w.game.players
    ensures id in w.history.eatenHere
    ensures Credited(w.history.eatenHere, Eaters(w.game.level, i.moves), w.game.level.number.value)[id] <= 45
  {
    hide Suits, LevelState.Ready, LengthLaw, ScoreLaw, LifeLaw, Serves, Eaters, Seated, LengthsFit;
    var value := w.game.level.number.value;
    assert 1 <= value <= LAST_NUMBER by {
      SoundLevelCanTick(w.game.level);
    }
    SumGrows(value, LAST_NUMBER);
    assert Sum(value) == Sum(value - 1) + value && Sum(LAST_NUMBER) == 45;
  }
}
