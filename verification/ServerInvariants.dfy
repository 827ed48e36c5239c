/** What every event keeps: the game is lawful, clients mirror it, and one timer drives it. */
module ServerInvariants {
  import opened Geometry
  import opened Definitions
  import opened Scores
  import opened HighScores
  import opened Snakes
  import opened LevelModel
  import opened GameModel
  import opened GameRuns
  import opened Replica
  import opened ServerModel

  // ---------------------------------------------------------------- the game and its clients

  /** The game could have come about in a run of a game of its own. */
  ghost predicate LawfulGame(g: GameState, sb: ScoreBoard) {
    exists h :: Lawful(World(g, sb, h, false))
  }

  ghost predicate DistinctPlayers(st: ServerState) {
    && (forall i, j :: 0 <= i < j < |st.players| ==> st.players[i].id != st.players[j].id)
    && (forall i :: 0 <= i < |st.players| ==> st.players[i].id < st.nextPlayer)
  }

  /** Without a game the scorer is empty. With one, the game is lawful, and a client that has received
      everything shows it. */
  ghost predicate GameKept(st: ServerState) {
    match st.game
    case None => st.scorer == NO_SCORES
    case Some(g) =>
      LawfulGame(g, st.scorer) && Mirrors(Replay(g.players, st.log), g, st.scorer)
  }

  /** A lawful game can be ticked, its scorer knows exactly its players, and its level has enough starts. */
  lemma {:induction false} LawfulGameTicks(g: GameState, sb: ScoreBoard)
    requires LawfulGame(g, sb)
    ensures Tickable(g, sb)
    ensures forall id :: id in sb.scores <==> id in g.players
    ensures g.levels != [] && EnoughStarts(g.levels, g.players, g.levelId)
    ensures 1 <= g.level.number.value <= LAST_NUMBER
  {
    var h :| Lawful(World(g, sb, h, false));
    var w := World(g, sb, h, false);
    NextTickCanRun(w);
    LawfulRoster(w);
    LawfulSeats(w);
    hide Lawful, Tickable;
  }

  lemma {:induction false} LawfulSeats(w: World)
    requires Lawful(w) && !w.over
    ensures w.game.levels != [] && EnoughStarts(w.game.levels, w.game.players, w.game.levelId)
    ensures 1 <= w.game.level.number.value <= LAST_NUMBER
  {
    hide Rostered, ScoreLaw, LifeLaw, LengthLaw, MealLaw, LengthsFit;
    LawfulCounts(w);
  }

  lemma {:induction false} LawfulRoster(w: World)
    requires Lawful(w)
    ensures forall id :: id in w.scores.scores <==> id in w.game.players
  {
  }

  lemma {:induction false} TickedGameIsLawful(g: GameState, sb: ScoreBoard, moves: Moves, choice: Choice)
    requires Tickable(g, sb) && Serves(choice, g, moves, sb) && LawfulGame(g, sb)
    requires ProgressedResult(g.level, moves, sb) != GameOver
    ensures LawfulGame(GameTicked(g, moves, sb, choice), TickedScores(g.settings, g.level, moves, sb))
    ensures GameTicked(g, moves, sb, choice).players == g.players
  {
    hide Lawful, Tickable, Serves, Recorded, GameTicked, TickedScores, ProgressedResult;
    var h :| Lawful(World(g, sb, h, false));
    var w, i := World(g, sb, h, false), Input(moves, choice);
    StepLawful(w, i);
    TickedPlayers(g, sb, moves, choice);
    assert Lawful(World(Step(w, i).game, Step(w, i).scores, Step(w, i).history, false));
  }

  lemma {:induction false} TickedPlayers(g: GameState, sb: ScoreBoard, moves: Moves, choice: Choice)
    requires Tickable(g, sb) && Serves(choice, g, moves, sb)
    ensures GameTicked(g, moves, sb, choice).players == g.players
  {
    hide Tickable, Progressed, Ticked, FirstOfLevel, AsksForNumber, ProgressedResult, CanStart, Suits,
         LevelState.Ready;
  }

  /** Messages that are not about the game change nothing for a client. */
  lemma {:induction false} OtherMessages(players: seq<PlayerId>, log: seq<Message>, m: Message)
    requires m.PlayerAdded? || m.UpdateReadiness? || m.Countdown? || m.GameOverMessage?
    ensures Replay(players, log + [m]) == Replay(players, log)
  {
    assert (log + [m])[..|log|] == log;
  }

  lemma {:induction false} PlayedKeepsGame(cfg: Config, st: ServerState, choice: Choice)
    requires PlaySafe(st) && Serves(choice, st.game.value, MovesOf(st.players), st.scorer)
    requires GameKept(st)
    ensures GameKept(Played(cfg, st, choice))
  {
    hide Serves, LawfulGame, Mirrors, Announced, GameTicked, TickedScores, ProgressedResult, Replay, ReplayFrom;
    var g, moves := st.game.value, MovesOf(st.players);
    if ProgressedResult(g.level, moves, st.scorer) != GameOver {
      TickedGameIsLawful(g, st.scorer, moves, choice);
      TickMirrors(g, st.scorer, moves, choice, Replay(g.players, st.log));
      ReplaySplits(g.players, st.log, [TickMessage(moves)] + Announced(g, moves, st.scorer, choice));
    }
  }

  lemma {:induction false} TickKeepsGame(cfg: Config, st: ServerState, countdown: nat, choice: Choice)
    requires TickSafe(st, countdown) && TickServed(st, countdown, choice)
    requires GameKept(st)
    ensures GameKept(TickOf(cfg, st, countdown, choice))
  {
    hide LawfulGame, Mirrors, Played, Replay, PlaySafe, Serves;
    if Plays(st, countdown) {
      PlaySafeWhilePausing(st);
      PlayedKeepsGame(cfg, st.(pausing := false, timers := []), choice);
    } else if !st.pausing {
      OtherMessages(st.game.value.players, st.log, Countdown(countdown));
    }
  }

  lemma {:induction false} PlaySafeWhilePausing(st: ServerState)
    ensures PlaySafe(st.(pausing := false, timers := [])) <==> PlaySafe(st)
  {
  }

  lemma {:induction false} BegunGame(cfg: Config, st: ServerState, choice: Choice)
    requires cfg.settings.startLives >= 1 && StartServed(cfg, st, choice)
    ensures GameKept(GameBegun(cfg, st, choice))
  {
    hide Suits, CanStart, Started, Lawful, Announcement, Replay, ReplayFrom, Mirrors, Received;
    var ids := Ids(st.players);
    var s := GameBegun(cfg, st, choice);
    NewWorldLawful(cfg.levels, cfg.settings, ids, choice);
    NewWorldFields(cfg.levels, cfg.settings, ids, choice);
    var c := ClientState(cfg.settings, None, FreshScores(ids, cfg.settings.startLives));
    ReplaySplits(ids, st.log, [GameStart(cfg.settings)] + Announcement(s.game.value.level));
    ReplayOne(ids, Replay(ids, st.log), GameStart(cfg.settings), Announcement(s.game.value.level));
    StartReceived(ids, Replay(ids, st.log), cfg.settings);
    AnnouncementMirrors(cfg.levels, cfg.settings, ids, cfg.settings.startLevel, choice, c);
  }

  lemma {:induction false} NewWorldFields(levels: seq<LevelDefinition>, settings: GameSettings,
                                          players: seq<PlayerId>, choice: Choice)
    requires Suits(levels, settings, players) && CanStart(levels, settings, players, settings.startLevel, choice)
    ensures
      var w := NewWorld(levels, settings, players, choice);
      w == World(Started(levels, settings, players, settings.startLevel, choice),
                 FreshScores(players, settings.startLives), w.history, false)
      && w.game.players == players
  {
  }

  lemma {:induction false} StartReceived(players: seq<PlayerId>, c: Option<ClientState>, settings: GameSettings)
    ensures Received(players, c, GameStart(settings))
         == Some(ClientState(settings, None, FreshScores(players, settings.startLives)))
  {
  }

  // ---------------------------------------------------------------- every event

  ghost predicate Kept(cfg: Config, st: ServerState) {
    cfg.settings.startLives >= 1 && DistinctPlayers(st) && GameKept(st)
  }

  lemma {:induction false} RemovingAClient(players: seq<PlayerState>, client: ClientId)
    ensures forall i :: 0 <= i < |WithoutClient(players, client)| ==> WithoutClient(players, client)[i] in players
    ensures (forall i, j :: 0 <= i < j < |players| ==> players[i].id != players[j].id) ==>
      forall i, j :: 0 <= i < j < |WithoutClient(players, client)| ==>
        WithoutClient(players, client)[i].id != WithoutClient(players, client)[j].id
  {
    if players != [] {
      RemovingAClient(players[1..], client);
      var rest := WithoutClient(players[1..], client);
      if players[0].client != client {
        assert WithoutClient(players, client) == [players[0]] + rest;
      } else {
        assert WithoutClient(players, client) == rest;
      }
    }
  }

  lemma {:induction false} LeavingKeeps(st: ServerState, client: ClientId)
    requires DistinctPlayers(st) && GameKept(st)
    ensures DistinctPlayers(Departed(st, client)) && GameKept(Departed(st, client))
  {
    hide LawfulGame, Mirrors, Replay;
    RemovingAClient(st.players, client);
    var rest := WithoutClient(st.players, client);
    forall i | 0 <= i < |rest|
      ensures rest[i].id < st.nextPlayer
    {
      var k :| 0 <= k < |st.players| && st.players[k] == rest[i];
    }
  }

  lemma {:induction false} PlayersStayDistinct(cfg: Config, st: ServerState, countdown: nat, choice: Choice)
    requires TickSafe(st, countdown) && TickServed(st, countdown, choice) && DistinctPlayers(st)
    ensures DistinctPlayers(TickOf(cfg, st, countdown, choice))
  {
    hide PlaySafe, Serves, Announced, GameTicked, TickedScores, ProgressedResult, FinalScore, WithScore, ReportOn,
         MovesOf, Announcement, Unreadied, AllUnready;
  }

  lemma {:induction false} StartKeeps(cfg: Config, st: ServerState, starting: Choice, ticking: Choice)
    requires StartDraws(cfg, st, starting, ticking) && StartSurvives(cfg, st, starting, ticking)
    requires Kept(cfg, st)
    ensures Kept(cfg, StartChecked(cfg, st, starting, ticking))
  {
    hide TickSafe, TickServed, WillStart, GameKept, StartServed, TickOf;
    if WillStart(st) {
      var begun := GameBegun(cfg, st, starting);
      BegunGame(cfg, st, starting);
      assert DistinctPlayers(begun);
      TickKeepsGame(cfg, begun, cfg.countdown, ticking);
      PlayersStayDistinct(cfg, begun, cfg.countdown, ticking);
    }
  }

  lemma {:induction false} UnpausedKeeps(st: ServerState)
    requires DistinctPlayers(st) && GameKept(st)
    ensures DistinctPlayers(Unpaused(st)) && GameKept(Unpaused(st))
  {
    hide LawfulGame, Mirrors, Replay;
  }

  lemma {:induction false} TurnKeeps(st: ServerState, player: PlayerId, d: Direction)
    requires DistinctPlayers(st) && GameKept(st)
    ensures DistinctPlayers(st.(players := Turned(st.players, player, d)))
    ensures GameKept(st.(players := Turned(st.players, player, d)))
  {
    hide LawfulGame, Mirrors, Replay;
  }

  lemma {:induction false} JoiningKeeps(st: ServerState, client: ClientId, name: string)
    requires DistinctPlayers(st) && GameKept(st)
    ensures DistinctPlayers(Joined(st, client, name)) && GameKept(Joined(st, client, name))
  {
    hide LawfulGame, Mirrors, Replay;
    if st.game.Some? {
      OtherMessages(st.game.value.players, st.log, PlayerAdded(st.nextPlayer, name));
    }
  }

  lemma {:induction false} ReadinessKeeps(st: ServerState, client: ClientId, ready: bool)
    requires DistinctPlayers(st) && GameKept(st)
    ensures DistinctPlayers(ReadinessSet(st, client, ready)) && GameKept(ReadinessSet(st, client, ready))
  {
    hide LawfulGame, Mirrors, Replay;
    if st.game.Some? {
      OtherMessages(st.game.value.players, st.log, UpdateReadiness(client, ready));
    }
  }

  /** Every event keeps the game lawful and its clients in step. */
  lemma {:induction false} EventKeeps(cfg: Config, st: ServerState, e: Event)
    requires CanHappen(cfg, st, e) && Kept(cfg, st)
    ensures Kept(cfg, Happens(cfg, st, e))
  {
    hide GameKept, DistinctPlayers, TickServed, TickSafe, StartServed, StartSafe, StartDraws, TickOf, StartChecked,
         Played, Joined, ReadinessSet, Departed, Turned, WillStart;
    match e {
      case Connect =>
        ConnectionsDoNotMatter(st, st.connections + [Connection(st.nextClient, false)], st.nextClient + 1,
          st.timers, st.pausing);
      case Disconnect(client) => LeavingKeeps(st, client);
      case AddPlayer(client, name, c, d) =>
        JoiningKeeps(st, client, name);
        StartKeeps(cfg, Joined(st, client, name), c, d);
      case SetReadiness(client, ready, c, d) =>
        ReadinessKeeps(st, client, ready);
        StartKeeps(cfg, ReadinessSet(st, client, ready), c, d);
      case TurnCommand(client, player, d) => TurnKeeps(st, player, d);
      case PauseCommand(client, player, c) =>
        ConnectionsDoNotMatter(st, st.connections, st.nextClient, st.timers, true);
        if Obeys(st, client, player) && st.paused {
          UnpausedKeeps(st);
          TickKeepsGame(cfg, Unpaused(st), 0, c);
          PlayersStayDistinct(cfg, Unpaused(st), 0, c);
        }
      case TimerFires(c) =>
        ConnectionsDoNotMatter(st, st.connections, st.nextClient, st.timers[1..], st.pausing);
        var s := st.(timers := st.timers[1..]);
        TimersDoNotMatter(st, c);
        TickKeepsGame(cfg, s, st.timers[0], c);
        PlayersStayDistinct(cfg, s, st.timers[0], c);
    }
  }

  lemma {:induction false} ConnectionsDoNotMatter(st: ServerState, connections: seq<Connection>, nextClient: ClientId,
                                                  timers: seq<nat>, pausing: bool)
    requires DistinctPlayers(st) && GameKept(st)
    ensures
      var s := st.(connections := connections, nextClient := nextClient, timers := timers, pausing := pausing);
      DistinctPlayers(s) && GameKept(s)
  {
  }

  lemma {:induction false} TimersDoNotMatter(st: ServerState, choice: Choice)
    requires st.timers != [] && TickSafe(st, st.timers[0]) && TickServed(st, st.timers[0], choice)
    ensures TickSafe(st.(timers := st.timers[1..]), st.timers[0])
    ensures TickServed(st.(timers := st.timers[1..]), st.timers[0], choice)
  {
  }

  // ---------------------------------------------------------------- one timer drives the game

  /** A game exists exactly if it is either waiting for its timer or paused; there is never a second
      timer, and no pause is being asked for while the game is paused. */
  ghost predicate Driven(st: ServerState) {
    && |st.timers| <= 1
    && (st.game.Some? <==> (st.timers != []) != st.paused)
    && !(st.timers != [] && st.paused)
    && !(st.pausing && st.paused)
  }

  /** The last client leaves a paused game. */
  predicate LeavesPaused(st: ServerState, e: Event) {
    e.Disconnect? && st.game.Some? && st.paused && WithoutConnection(st.connections, e.client) == []
  }

  lemma {:induction false} TickDrives(cfg: Config, st: ServerState, countdown: nat, choice: Choice)
    requires TickSafe(st, countdown) && TickServed(st, countdown, choice)
    requires st.game.Some? && !st.paused && (Rests(st, countdown) ==> st.timers == [])
    ensures Driven(TickOf(cfg, st, countdown, choice))
  {
    hide PlaySafe, Serves, Announced, GameTicked, TickedScores, ProgressedResult;
  }

  lemma {:induction false} StartDrives(cfg: Config, st: ServerState, starting: Choice, ticking: Choice)
    requires StartDraws(cfg, st, starting, ticking) && StartSurvives(cfg, st, starting, ticking)
    requires Driven(st)
    ensures Driven(StartChecked(cfg, st, starting, ticking))
  {
    hide TickSafe, TickServed, StartServed, TickOf;
    if WillStart(st) {
      TickDrives(cfg, GameBegun(cfg, st, starting), cfg.countdown, ticking);
    }
  }

  /** Every event keeps the game driven by a single timer, except that the last client leaves while
      the game is paused: the code drops the game but stays paused. */
  lemma {:induction false} EventDrives(cfg: Config, st: ServerState, e: Event)
    requires CanHappen(cfg, st, e) && Driven(st)
    ensures Driven(Happens(cfg, st, e)) <==> !LeavesPaused(st, e)
  {
    hide TickSafe, TickServed, StartServed, StartSafe, StartDraws, StartChecked, WillStart, TickOf, Played,
         WithoutClient, WithoutConnection, WithReadiness, Turned, AllReset;
    match e {
      case AddPlayer(client, name, c, d) => StartDrives(cfg, Joined(st, client, name), c, d);
      case SetReadiness(client, ready, c, d) => StartDrives(cfg, ReadinessSet(st, client, ready), c, d);
      case PauseCommand(client, player, c) =>
        if Obeys(st, client, player) && st.paused {
          TickDrives(cfg, Unpaused(st), 0, c);
        }
      case TimerFires(c) =>
        TimersDoNotMatter(st, c);
        TickDrives(cfg, st.(timers := st.timers[1..]), st.timers[0], c);
      case _ =>
    }
  }

  lemma {:induction false} TickStartsNoGame(cfg: Config, st: ServerState, countdown: nat, choice: Choice)
    requires TickSafe(st, countdown) && TickServed(st, countdown, choice)
    ensures TickOf(cfg, st, countdown, choice).game.Some? ==> st.game.Some?
    ensures !TickOf(cfg, st, countdown, choice).pausing
  {
    hide PlaySafe, Serves, Announced, GameTicked, TickedScores, ProgressedResult;
  }

  lemma {:induction false} StartKeepsApart(cfg: Config, st: ServerState, starting: Choice, ticking: Choice)
    requires StartDraws(cfg, st, starting, ticking) && StartSurvives(cfg, st, starting, ticking)
    requires !(st.pausing && st.paused)
    ensures
      var s := StartChecked(cfg, st, starting, ticking);
      !(s.pausing && s.paused)
  {
    hide TickSafe, TickServed, StartServed, TickOf;
    if WillStart(st) {
      TickStartsNoGame(cfg, GameBegun(cfg, st, starting), cfg.countdown, ticking);
    }
  }

  /** A pause is never asked for while the game is paused. */
  lemma {:induction false} EventKeepsApart(cfg: Config, st: ServerState, e: Event)
    requires CanHappen(cfg, st, e) && !(st.pausing && st.paused)
    ensures !(Happens(cfg, st, e).pausing && Happens(cfg, st, e).paused)
  {
    hide TickSafe, TickServed, StartServed, StartSafe, StartDraws, StartSurvives, StartChecked, WillStart, TickOf,
         Played, WithoutClient, WithoutConnection, WithReadiness, Turned, AllReset;
    match e {
      case AddPlayer(client, name, c, d) => StartKeepsApart(cfg, Joined(st, client, name), c, d);
      case SetReadiness(client, ready, c, d) => StartKeepsApart(cfg, ReadinessSet(st, client, ready), c, d);
      case PauseCommand(client, player, c) =>
        if Obeys(st, client, player) && st.paused {
          TickStartsNoGame(cfg, Unpaused(st), 0, c);
        }
      case TimerFires(c) =>
        TimersDoNotMatter(st, c);
        TickStartsNoGame(cfg, st.(timers := st.timers[1..]), st.timers[0], c);
      case _ =>
    }
  }

  // ---------------------------------------------------------------- whole runs

  ghost predicate AlwaysDriven(cfg: Config, st: ServerState, events: seq<Event>)
    requires Run(cfg, st, events)
    decreases |events|
  {
    hide CanHappen, Happens;
    Driven(st) && (events == [] || AlwaysDriven(cfg, Happens(cfg, st, events[0]), events[1..]))
  }

  ghost predicate NeverLeftPaused(cfg: Config, st: ServerState, events: seq<Event>)
    requires Run(cfg, st, events)
    decreases |events|
  {
    hide CanHappen, Happens;
    events == [] || (!LeavesPaused(st, events[0]) && NeverLeftPaused(cfg, Happens(cfg, st, events[0]), events[1..]))
  }

  /** A run has a single tick driver in all its states exactly if the last client never leaves a
      paused game in it. */
  lemma {:induction false} SingleTickDriver(cfg: Config, st: ServerState, events: seq<Event>)
    requires Run(cfg, st, events) && Driven(st)
    ensures AlwaysDriven(cfg, st, events) <==> NeverLeftPaused(cfg, st, events)
    decreases |events|
  {
    hide CanHappen, Happens, Driven, LeavesPaused;
    if events != [] {
      EventDrives(cfg, st, events[0]);
      var s := Happens(cfg, st, events[0]);
      if LeavesPaused(st, events[0]) {
        assert !Driven(s);
      } else {
        SingleTickDriver(cfg, s, events[1..]);
      }
    }
  }

  /** A run goes on. */
  lemma {:induction false} OneMoreEvent(cfg: Config, st: ServerState, events: seq<Event>, e: Event)
    requires Run(cfg, st, events) && CanHappen(cfg, AfterAll(cfg, st, events), e)
    ensures Run(cfg, st, events + [e])
    ensures AfterAll(cfg, st, events + [e]) == Happens(cfg, AfterAll(cfg, st, events), e)
    decreases |events|
  {
    hide CanHappen, Happens;
    if events == [] {
      assert [e][1..] == [];
      assert events + [e] == [e];
    } else {
      assert (events + [e])[1..] == events[1..] + [e];
      OneMoreEvent(cfg, Happens(cfg, st, events[0]), events[1..], e);
    }
  }

  lemma {:induction false} RunKeepsApart(cfg: Config, st: ServerState, events: seq<Event>)
    requires Run(cfg, st, events) && !(st.pausing && st.paused)
    ensures !(AfterAll(cfg, st, events).pausing && AfterAll(cfg, st, events).paused)
    decreases |events|
  {
    hide CanHappen, Happens;
    if events != [] {
      EventKeepsApart(cfg, st, events[0]);
      RunKeepsApart(cfg, Happens(cfg, st, events[0]), events[1..]);
    }
  }

  lemma {:induction false} RunKeeps(cfg: Config, st: ServerState, events: seq<Event>)
    requires Run(cfg, st, events) && Kept(cfg, st)
    ensures Kept(cfg, AfterAll(cfg, st, events))
    decreases |events|
  {
    hide CanHappen, Happens, Kept;
    if events != [] {
      EventKeeps(cfg, st, events[0]);
      RunKeeps(cfg, Happens(cfg, st, events[0]), events[1..]);
    }
  }

  lemma {:induction false} RunsAreKept(cfg: Config, events: seq<Event>)
    requires cfg.settings.startLives >= 1 && Run(cfg, IDLE, events)
    ensures Kept(cfg, AfterAll(cfg, IDLE, events))
  {
    hide Run, AfterAll;
    RunKeeps(cfg, IDLE, events);
  }

  /** Replica correctness: after every run of the server, a client that knows the players of the game
      and has received everything shows exactly the level, scores and lives of the server. */
  lemma {:induction false} ClientsMirrorTheServer(cfg: Config, events: seq<Event>)
    requires cfg.settings.startLives >= 1 && Run(cfg, IDLE, events)
    ensures
      var st := AfterAll(cfg, IDLE, events);
      && (st.game.Some? ==>
            && Mirrors(Replay(st.game.value.players, st.log), st.game.value, st.scorer)
            && LawfulGame(st.game.value, st.scorer))
      && (st.game.None? ==> st.scorer == NO_SCORES)
  {
    hide Run, AfterAll, LawfulGame, Mirrors, Replay;
    RunKeeps(cfg, IDLE, events);
  }

  // ---------------------------------------------------------------- what clients see on the way

  lemma {:induction false} TickExtendsLog(cfg: Config, st: ServerState, countdown: nat, choice: Choice)
    requires TickSafe(st, countdown) && TickServed(st, countdown, choice)
    ensures st.log <= TickOf(cfg, st, countdown, choice).log
  {
    hide PlaySafe, Serves, Announced, GameTicked, TickedScores, ProgressedResult, Unreadied;
  }

  lemma {:induction false} StartExtendsLog(cfg: Config, st: ServerState, starting: Choice, ticking: Choice)
    requires StartDraws(cfg, st, starting, ticking) && StartSurvives(cfg, st, starting, ticking)
    ensures st.log <= StartChecked(cfg, st, starting, ticking).log
  {
    hide TickSafe, TickServed, StartServed, TickOf;
    if WillStart(st) {
      TickExtendsLog(cfg, GameBegun(cfg, st, starting), cfg.countdown, ticking);
    }
  }

  lemma {:induction false} EventExtendsLog(cfg: Config, st: ServerState, e: Event)
    requires CanHappen(cfg, st, e)
    ensures st.log <= Happens(cfg, st, e).log
  {
    hide TickServed, TickSafe, StartServed, StartSafe, StartDraws, TickOf, StartChecked, Played, Turned, WillStart;
    match e {
      case AddPlayer(client, name, c, d) => StartExtendsLog(cfg, Joined(st, client, name), c, d);
      case SetReadiness(client, ready, c, d) => StartExtendsLog(cfg, ReadinessSet(st, client, ready), c, d);
      case PauseCommand(client, player, c) =>
        if Obeys(st, client, player) && st.paused {
          TickExtendsLog(cfg, Unpaused(st), 0, c);
        }
      case TimerFires(c) =>
        TimersDoNotMatter(st, c);
        TickExtendsLog(cfg, st.(timers := st.timers[1..]), st.timers[0], c);
      case _ =>
    }
  }

  lemma {:induction false} RunExtendsLog(cfg: Config, st: ServerState, events: seq<Event>, k: nat)
    requires Run(cfg, st, events) && k <= |events|
    ensures Run(cfg, st, events[..k])
    ensures AfterAll(cfg, st, events[..k]).log <= AfterAll(cfg, st, events).log
    decreases |events|
  {
    hide CanHappen, Happens;
    if k > 0 {
      EventExtendsLog(cfg, st, events[0]);
      RunExtendsLog(cfg, Happens(cfg, st, events[0]), events[1..], k - 1);
      assert events[..k][1..] == events[1..][..k - 1];
    } else if events != [] {
      EventExtendsLog(cfg, st, events[0]);
      RunExtendsLog(cfg, Happens(cfg, st, events[0]), events[1..], 0);
      assert events[1..][..0] == [];
    }
  }

  /** A client that lags behind shows an earlier state of the server: after the part of the log that
      had been sent by the k-th event it shows what the server had then. */
  lemma {:induction false} LaggingClientsMirrorThePast(cfg: Config, events: seq<Event>, k: nat)
    requires cfg.settings.startLives >= 1 && Run(cfg, IDLE, events) && k <= |events|
    ensures Run(cfg, IDLE, events[..k])
    ensures
      var past, log := AfterAll(cfg, IDLE, events[..k]), AfterAll(cfg, IDLE, events).log;
      && past.log <= log
      && (past.game.Some? ==>
            Mirrors(Replay(past.game.value.players, log[..|past.log|]), past.game.value, past.scorer))
  {
    hide Run, AfterAll, Mirrors, Replay, LawfulGame;
    RunExtendsLog(cfg, IDLE, events, k);
    ClientsMirrorTheServer(cfg, events[..k]);
    var past, log := AfterAll(cfg, IDLE, events[..k]), AfterAll(cfg, IDLE, events).log;
    assert log[..|past.log|] == past.log;
  }

  /** What is sent in the tick that ends a game. */
  lemma {:induction false} EndOfLog(cfg: Config, st: ServerState, choice: Choice)
    requires PlaySafe(st) && Serves(choice, st.game.value, MovesOf(st.players), st.scorer)
    requires ProgressedResult(st.game.value.level, MovesOf(st.players), st.scorer) == GameOver
    ensures
      var g, moves := st.game.value, MovesOf(st.players);
      var after := TickedScores(g.settings, g.level, moves, st.scorer);
      var score := FinalScore(AllDequeued(st.players), after, choice.now);
      var end := Played(cfg, st, choice);
      && end.highScores == WithScore(st.highScores, g.settings, score)
      && end.log
      == st.log + ([TickMessage(moves)] + Announced(g, moves, st.scorer, choice))
         + [GameOverMessage(ReportOn(st.highScores, g.settings, score))] + Unreadied(st.connections)
  {
    var g := st.game.value;
    TickedSettings(g, st.scorer, MovesOf(st.players), choice);
    hide Tickable, Serves, Announced, GameTicked, TickedScores, ProgressedResult, FinalScore, WithScore, ReportOn;
  }

  lemma {:induction false} TickedSettings(g: GameState, sb: ScoreBoard, moves: Moves, choice: Choice)
    requires Tickable(g, sb) && Serves(choice, g, moves, sb)
    ensures GameTicked(g, moves, sb, choice).settings == g.settings
  {
    hide Tickable, Progressed, Ticked, FirstOfLevel, AsksForNumber, ProgressedResult, CanStart, Suits,
         LevelState.Ready;
  }

  /** When a game ends, the score that enters the tables and is reported is the one that clients show:
      all players' scores are among those that a client shows, and it is made of them. */
  lemma {:induction false} FinalScoreShown(cfg: Config, st: ServerState, choice: Choice)
    requires PlaySafe(st) && Serves(choice, st.game.value, MovesOf(st.players), st.scorer) && GameKept(st)
    requires ProgressedResult(st.game.value.level, MovesOf(st.players), st.scorer) == GameOver
    ensures
      var g, end := st.game.value, Played(cfg, st, choice);
      var shown := Replay(g.players, end.log);
      && shown.Some?
      && (forall i :: 0 <= i < |st.players| ==> st.players[i].id in shown.value.scores.scores)
      && var score := FinalScore(AllDequeued(st.players), shown.value.scores, choice.now);
      && end.highScores == WithScore(st.highScores, g.settings, score)
      && GameOverMessage(ReportOn(st.highScores, g.settings, score)) in end.log
  {
    var g, moves := st.game.value, MovesOf(st.players);
    var after := TickedScores(g.settings, g.level, moves, st.scorer);
    assert forall i :: 0 <= i < |st.players| ==> st.players[i].id in after.scores;
    TickMirrors(g, st.scorer, moves, choice, Replay(g.players, st.log));
    EndOfLog(cfg, st, choice);
    hide PlaySafe, Tickable, Serves, LawfulGame, Announced, GameTicked, TickedScores, ProgressedResult, Replay,
         ReplayFrom, Played, FinalScore, WithScore, ReportOn, GameKept;
    var played := [TickMessage(moves)] + Announced(g, moves, st.scorer, choice);
    ReplaySplits(g.players, st.log, played);
    var score := FinalScore(AllDequeued(st.players), after, choice.now);
    var final := GameOverMessage(ReportOn(st.highScores, g.settings, score));
    OtherMessages(g.players, st.log + played, final);
    OnlyOtherMessages(g.players, st.log + played + [final], Unreadied(st.connections));
  }

  lemma {:induction false} TickKeepsTables(cfg: Config, st: ServerState, countdown: nat, choice: Choice)
    requires TickSafe(st, countdown) && TickServed(st, countdown, choice) && Ordered(st.highScores)
    ensures Ordered(TickOf(cfg, st, countdown, choice).highScores)
  {
    hide Serves, Announced, GameTicked, TickedScores, ProgressedResult, FinalScore, WithScore, ReportOn,
         Ordered, MovesOf, AllReset, Unreadied, AllUnready;
    if Plays(st, countdown) {
      var g, moves := st.game.value, MovesOf(st.players);
      var after := TickedScores(g.settings, g.level, moves, st.scorer);
      TickedSettings(g, st.scorer, moves, choice);
      StillOrdered(st.highScores, g.settings, FinalScore(AllDequeued(st.players), after, choice.now));
    }
  }

  lemma {:induction false} StartKeepsTables(cfg: Config, st: ServerState, starting: Choice, ticking: Choice)
    requires StartDraws(cfg, st, starting, ticking) && StartSurvives(cfg, st, starting, ticking)
    requires Ordered(st.highScores)
    ensures Ordered(StartChecked(cfg, st, starting, ticking).highScores)
  {
    hide TickSafe, TickServed, StartServed, TickOf, Ordered;
    if WillStart(st) {
      TickKeepsTables(cfg, GameBegun(cfg, st, starting), cfg.countdown, ticking);
    }
  }

  lemma {:induction false} EventKeepsTables(cfg: Config, st: ServerState, e: Event)
    requires CanHappen(cfg, st, e) && Ordered(st.highScores)
    ensures Ordered(Happens(cfg, st, e).highScores)
  {
    hide TickServed, TickSafe, StartServed, StartSafe, StartDraws, TickOf, StartChecked, Played, Turned, WillStart,
         Ordered;
    match e {
      case AddPlayer(client, name, c, d) => StartKeepsTables(cfg, Joined(st, client, name), c, d);
      case SetReadiness(client, ready, c, d) => StartKeepsTables(cfg, ReadinessSet(st, client, ready), c, d);
      case PauseCommand(client, player, c) =>
        if Obeys(st, client, player) && st.paused {
          TickKeepsTables(cfg, Unpaused(st), 0, c);
        }
      case TimerFires(c) =>
        TimersDoNotMatter(st, c);
        TickKeepsTables(cfg, st.(timers := st.timers[1..]), st.timers[0], c);
      case _ =>
    }
  }

  /** In every run the tables of high scores stay strictly ordered, so that every report means what it says. */
  lemma {:induction false} TablesStayOrdered(cfg: Config, st: ServerState, events: seq<Event>)
    requires Run(cfg, st, events) && Ordered(st.highScores)
    ensures Ordered(AfterAll(cfg, st, events).highScores)
    decreases |events|
  {
    hide CanHappen, Happens, Ordered;
    if events != [] {
      EventKeepsTables(cfg, st, events[0]);
      TablesStayOrdered(cfg, Happens(cfg, st, events[0]), events[1..]);
    }
  }

  lemma {:induction false} OnlyOtherMessages(players: seq<PlayerId>, log: seq<Message>, others: seq<Message>)
    requires forall k :: 0 <= k < |others| ==> others[k].UpdateReadiness?
    ensures Replay(players, log + others) == Replay(players, log)
    decreases |others|
  {
    hide Replay;
    if others == [] {
      assert log + others == log;
    } else {
      var n := |others| - 1;
      OnlyOtherMessages(players, log, others[..n]);
      OtherMessages(players, log + others[..n], others[n]);
      assert log + others == log + others[..n] + [others[n]];
    }
  }

  lemma {:induction false} DrivenAtTheEnd(cfg: Config, st: ServerState, events: seq<Event>)
    requires Run(cfg, st, events) && AlwaysDriven(cfg, st, events)
    ensures Driven(AfterAll(cfg, st, events))
    decreases |events|
  {
    hide CanHappen, Happens, Driven;
    if events != [] {
      DrivenAtTheEnd(cfg, Happens(cfg, st, events[0]), events[1..]);
    }
  }
}
