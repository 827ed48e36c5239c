/** When the server survives: exactly which events it does not survive, in every state that it reaches. */
module ServerSurvival {
  import opened Definitions
  import opened Scores
  import opened LevelModel
  import opened GameModel
  import opened GameRuns
  import opened Replica
  import opened TurnQueues
  import opened ServerModel
  import opened ServerInvariants
  import opened ServerRosters

  /** What the server is started with: a pack that the program is made for, and at least one life for
      everybody. How many starts the levels of the pack have is open. */
  ghost predicate WellSet(cfg: Config) {
    WellMade(cfg.levels, cfg.settings) && cfg.settings.startLives >= 1
  }

  /** A game that is there can be ticked; without one, the scorer is empty. */
  ghost predicate Sane(st: ServerState) {
    match st.game
    case None => st.scorer == NO_SCORES
    case Some(g) => Tickable(g, st.scorer)
  }

  lemma {:induction false} KeptIsSane(cfg: Config, st: ServerState)
    requires Kept(cfg, st)
    ensures Sane(st)
  {
    hide LawfulGame, Tickable, Mirrors, Replay;
    if st.game.Some? {
      LawfulGameTicks(st.game.value, st.scorer);
    }
  }

  // ---------------------------------------------------------------- what fails

  /** Somebody eats the last number of a level and nobody dies. */
  ghost predicate Completes(l: LevelState, moves: Moves)
    requires l.Ready()
  {
    l.number.value == LAST_NUMBER && Eaters(l, moves) != {} && Casualties(l, moves) == {}
  }

  /** Somebody dies who has a single life left. */
  ghost predicate LosesLastLife(l: LevelState, moves: Moves, sb: ScoreBoard)
    requires l.Ready()
  {
    exists id :: id in Casualties(l, moves) && id in sb.lives && sb.lives[id] == 1
  }

  /** Some player of the server has no score: the player has joined during the game. */
  predicate HasNewcomer(st: ServerState) {
    exists i :: 0 <= i < |st.players| && st.players[i].id !in st.scorer.scores
  }

  /** A game starts with more players than its first level has starts. */
  predicate Overcrowded(cfg: Config, st: ServerState) {
    && WillStart(st) && cfg.levels != []
    && |st.players| > |DefinitionOf(cfg.levels, cfg.settings.startLevel).starts|
  }

  /** A tick that the server does not survive: there is no game to be played; or it completes a level, and the next one
      has fewer starts than there are players; or it ends the game, and a newcomer is there. */
  ghost predicate TickFails(st: ServerState, countdown: nat) {
    match st.game
    case None => !Rests(st, countdown)
    case Some(g) =>
      && Plays(st, countdown) && g.level.Ready()
      && (|| (&& Completes(g.level, MovesOf(st.players)) && g.levels != []
              && |g.players| > |DefinitionOf(g.levels, g.levelId + 1).starts|)
          || (LosesLastLife(g.level, MovesOf(st.players), st.scorer) && HasNewcomer(st)))
  }

  /** An event that the server does not survive. */
  ghost predicate Fails(cfg: Config, st: ServerState, e: Event) {
    match e
    case AddPlayer(client, name, _, _) => Overcrowded(cfg, Joined(st, client, name))
    case SetReadiness(client, ready, _, _) => Overcrowded(cfg, ReadinessSet(st, client, ready))
    case PauseCommand(client, player, _) => Obeys(st, client, player) && st.paused && TickFails(Unpaused(st), 0)
    case TimerFires(_) => st.timers != [] && TickFails(st, st.timers[0])
    case _ => false
  }

  lemma {:induction false} EndingWithANewcomerFails(st: ServerState)
    requires st.game.Some? && !st.pausing && HasNewcomer(st) && st.game.value.level.Ready()
    requires LosesLastLife(st.game.value.level, MovesOf(st.players), st.scorer)
    ensures TickFails(st, 0)
  {
  }

  /** A wait of the timer ends with a tick that fails: the world allows it. */
  lemma {:induction false} FiringFails(cfg: Config, st: ServerState, ticking: Choice)
    requires GameKept(st) && st.timers != [] && TickFails(st, st.timers[0])
    ensures Allowed(cfg, st, Event.TimerFires(ticking)) && Fails(cfg, st, Event.TimerFires(ticking))
    ensures !Survives(cfg, st, Event.TimerFires(ticking))
  {
    hide TickFails, GameKept, TickSafe, LawfulGame;
    GameIsLawful(st);
    TickSafeUnlessItFails(st, st.timers[0]);
  }

  // ---------------------------------------------------------------- nothing else does

  lemma {:induction false} TickSafeUnlessItFails(st: ServerState, countdown: nat)
    requires st.game.Some? ==> LawfulGame(st.game.value, st.scorer)
    ensures TickSafe(st, countdown) <==> !TickFails(st, countdown)
  {
    hide LawfulGame, Tickable, ProgressedResult, Eaters, Casualties, MovesOf, LevelState.Ready, Fits;
    if st.game.Some? {
      var g, moves := st.game.value, MovesOf(st.players);
      LawfulGameTicks(g, st.scorer);
      TickableIsReady(g, st.scorer);
      DeadlyResult(g.level, moves, st.scorer);
      FitsUnlessCompleting(g, moves, st.scorer);
    }
  }

  lemma {:induction false} FitsUnlessCompleting(g: GameState, moves: Moves, sb: ScoreBoard)
    requires Tickable(g, sb) && EnoughStarts(g.levels, g.players, g.levelId)
    ensures Fits(g, moves, sb) <==>
      !(Completes(g.level, moves) && |g.players| > |DefinitionOf(g.levels, g.levelId + 1).starts|)
  {
    DeadlyResult(g.level, moves, sb);
    hide ProgressedResult, Eaters, Casualties, LevelState.Ready, LevelDefinition.WellFormed;
  }

  lemma {:induction false} TickableIsReady(g: GameState, sb: ScoreBoard)
    requires Tickable(g, sb)
    ensures g.level.Ready() && g.levels != []
  {
  }

  /** The first tick of a game does not fail. */
  lemma {:induction false} FirstTickIsSafe(cfg: Config, st: ServerState, choice: Choice)
    requires cfg.settings.startLives >= 1 && StartServed(cfg, st, choice)
    ensures TickSafe(GameBegun(cfg, st, choice), cfg.countdown)
  {
    var s := GameBegun(cfg, st, choice);
    BegunGame(cfg, st, choice);
    FirstNumber(cfg.levels, cfg.settings, Ids(st.players), choice);
    assert !HasNewcomer(s);
    hide Suits, CanStart, Started, LawfulGame, FreshScores, Completes, HasNewcomer;
    TickSafeUnlessItFails(s, cfg.countdown);
    if s.game.value.level.Ready() {
      NotCompleted(s.game.value.level, MovesOf(s.players));
    }
  }

  lemma {:induction false} NotCompleted(l: LevelState, moves: Moves)
    requires l.Ready() && l.number.value == 1
    ensures !Completes(l, moves)
  {
  }

  lemma {:induction false} FirstNumber(levels: seq<LevelDefinition>, settings: GameSettings, players: seq<PlayerId>,
                                       choice: Choice)
    requires Suits(levels, settings, players) && CanStart(levels, settings, players, settings.startLevel, choice)
    ensures Started(levels, settings, players, settings.startLevel, choice).level.number.value == 1
  {
    hide Suits, CanStart, Started;
    StartedInPlay(levels, settings, players, settings.startLevel, choice);
  }

  lemma {:induction false} StartSurvivesUnlessOvercrowded(cfg: Config, st: ServerState, starting: Choice,
                                                          ticking: Choice)
    requires WellSet(cfg) && DistinctPlayers(st) && GameKept(st) && StartDraws(cfg, st, starting, ticking)
    ensures StartSurvives(cfg, st, starting, ticking) <==> !Overcrowded(cfg, st)
  {
    hide LevelDefinition.WellFormed, CanStart, GameBegun, TickSafe, TickServed, Draws;
    if WillStart(st) && StartFits(cfg, st) {
      FirstTickIsSafe(cfg, st, starting);
    }
  }

  /** Whatever the world allows in a state that the server can reach, the server survives it exactly if
      it does not fail: it starts no game with more players than the first level has starts, completes no
      level before one with too few, ends no game with a newcomer present, and runs no tick without a game. */
  lemma {:induction false} SurvivesUnlessItFails(cfg: Config, st: ServerState, e: Event)
    requires WellSet(cfg) && Kept(cfg, st) && Allowed(cfg, st, e)
    ensures Survives(cfg, st, e) <==> !Fails(cfg, st, e)
  {
    hide StartDraws, StartSurvives, Overcrowded, TickSafe, TickFails, Joined, ReadinessSet, WellSet, DistinctPlayers,
         GameKept, LawfulGame, Draws;
    match e {
      case AddPlayer(client, name, c, d) =>
        JoiningKeeps(st, client, name);
        StartSurvivesUnlessOvercrowded(cfg, Joined(st, client, name), c, d);
      case SetReadiness(client, ready, c, d) =>
        ReadinessKeeps(st, client, ready);
        StartSurvivesUnlessOvercrowded(cfg, ReadinessSet(st, client, ready), c, d);
      case PauseCommand(client, player, c) =>
        GameIsLawful(st);
        TickSafeUnlessItFails(Unpaused(st), 0);
      case TimerFires(c) =>
        GameIsLawful(st);
        TickSafeUnlessItFails(st, st.timers[0]);
      case _ =>
    }
  }

  lemma {:induction false} GameIsLawful(st: ServerState)
    requires GameKept(st)
    ensures st.game.Some? ==> LawfulGame(st.game.value, st.scorer)
  {
  }

  /** The same for whole runs: what the world allows after a run of the server can happen exactly if it
      does not fail. */
  lemma {:induction false} TheServerSurvives(cfg: Config, events: seq<Event>, e: Event)
    requires WellSet(cfg) && Run(cfg, IDLE, events) && Allowed(cfg, AfterAll(cfg, IDLE, events), e)
    ensures CanHappen(cfg, AfterAll(cfg, IDLE, events), e) <==> !Fails(cfg, AfterAll(cfg, IDLE, events), e)
  {
    hide Run, AfterAll, Allowed, Survives, Fails;
    RunKeeps(cfg, IDLE, events);
    SurvivesUnlessItFails(cfg, AfterAll(cfg, IDLE, events), e);
  }

  // ---------------------------------------------------------------- ticks without a game

  /** The event runs a tick although there is no game. */
  predicate TicksWithoutGame(st: ServerState, e: Event) {
    && st.game.None?
    && match e
       case PauseCommand(client, player, _) => Obeys(st, client, player) && st.paused && !Rests(st, 0)
       case TimerFires(_) => st.timers != [] && !Rests(st, st.timers[0])
       case _ => false
  }

  /** If the last client never leaves a paused game, no tick is ever run without a game. */
  lemma {:induction false} NoTickWithoutGame(cfg: Config, events: seq<Event>, e: Event)
    requires Run(cfg, IDLE, events) && NeverLeftPaused(cfg, IDLE, events)
    ensures !TicksWithoutGame(AfterAll(cfg, IDLE, events), e)
  {
    hide Run, AfterAll, NeverLeftPaused, AlwaysDriven;
    SingleTickDriver(cfg, IDLE, events);
    DrivenAtTheEnd(cfg, IDLE, events);
  }

  lemma {:induction false} NobodyWithoutConnections(st: ServerState)
    requires Hosted(st)
    ensures st.connections == [] ==> st.players == []
  {
    if st.players != [] {
      assert Connected(st.connections, st.players[0].client);
    }
  }

  /** And if the last client does leave a paused game, a client that connects, adds a player and presses
      pause is all it takes: the world allows it, and the server does not survive it. */
  lemma {:induction false} LeavingAPausedGameIsFatal(cfg: Config, events: seq<Event>, e: Event, name: string, a: Choice,
                                                     b: Choice, c: Choice)
    requires Run(cfg, IDLE, events) && CanHappen(cfg, AfterAll(cfg, IDLE, events), e)
    requires LeavesPaused(AfterAll(cfg, IDLE, events), e)
    ensures
      var st := AfterAll(cfg, IDLE, events);
      var comes := events + [e] + [Connect] + [Event.AddPlayer(st.nextClient, name, a, b)];
      var pause := PauseCommand(st.nextClient, st.nextPlayer, c);
      && Run(cfg, IDLE, comes)
      && Allowed(cfg, AfterAll(cfg, IDLE, comes), pause)
      && TicksWithoutGame(AfterAll(cfg, IDLE, comes), pause)
      && !Survives(cfg, AfterAll(cfg, IDLE, comes), pause)
  {
    var st := AfterAll(cfg, IDLE, events);
    RunsAreHosted(cfg, IDLE, events);
    RunKeepsApart(cfg, IDLE, events);
    LeavingStaysHosted(st, e.client);
    var s := Departed(st, e.client);
    NobodyWithoutConnections(s);
    assert Happens(cfg, st, e) == s;
    var join := Event.AddPlayer(st.nextClient, name, a, b);
    JoinsAlone(cfg, s, name, a, b);
    hide CanHappen, Happens, Departed, Hosted, LeavesPaused, Run, AfterAll;
    OneMoreEvent(cfg, IDLE, events, e);
    OneMoreEvent(cfg, IDLE, events + [e], Connect);
    OneMoreEvent(cfg, IDLE, events + [e] + [Connect], join);
    PauseIsFatal(cfg, AfterAll(cfg, IDLE, events + [e] + [Connect] + [join]), st.nextClient, st.nextPlayer, c);
  }

  /** A client connects to an empty server and adds a player. */
  lemma {:induction false} JoinsAlone(cfg: Config, st: ServerState, name: string, a: Choice, b: Choice)
    requires st.connections == [] && st.players == []
    requires st.game.None?
    ensures
      var join := Event.AddPlayer(st.nextClient, name, a, b);
      && CanHappen(cfg, st, Connect) && CanHappen(cfg, Happens(cfg, st, Connect), join)
      && var u := Happens(cfg, Happens(cfg, st, Connect), join);
      && u.connections == [Connection(st.nextClient, false)]
      && u.players == [PlayerState(st.nextPlayer, name, st.nextClient, NO_TURNS)]
      && u.paused == st.paused && u.pausing == st.pausing && u.game.None?
  {
    var t := Happens(cfg, st, Connect);
    assert t.connections == [Connection(st.nextClient, false)] && t.players == [];
    assert Connected(t.connections, st.nextClient) by { assert t.connections[0].id == st.nextClient; }
    var u := Joined(t, st.nextClient, name);
    assert !u.connections[0].ready;
  }

  lemma {:induction false} PauseIsFatal(cfg: Config, st: ServerState, client: ClientId, player: PlayerId, c: Choice)
    requires |st.connections| == 1 && st.connections[0].id == client
    requires |st.players| == 1 && st.players[0].id == player && st.players[0].client == client
    requires st.paused && !st.pausing && st.game.None?
    ensures Allowed(cfg, st, PauseCommand(client, player, c)) && !Survives(cfg, st, PauseCommand(client, player, c))
    ensures TicksWithoutGame(st, PauseCommand(client, player, c))
  {
    assert Commands(st, client, 0, player);
  }
}
