/** Runs that end in an event that the server does not survive, on a pack with a single small level. */
module ServerWitness {
  import opened Geometry
  import opened Definitions
  import opened Boards
  import opened Scores
  import opened Snakes
  import opened LevelModel
  import opened GameModel
  import opened TurnQueues
  import opened ServerModel
  import opened ServerInvariants
  import opened ServerSurvival

  /** A bare level with one start, from which a snake moves straight into the border. */
  const SMALL: LevelDefinition := LevelDefinition(5, 5, [], [], [Position(Point(1, 1), Direction.Left)])
  const SETTINGS: GameSettings := GameSettings(0, 1, 1, 0, 0)
  const CFG: Config := Config([SMALL], SETTINGS, 1)
  const DRAWS: Choice := Choice((i, p) => false, [Point(2, 2)], 0)

  lemma {:induction false} SmallIsWellSet()
    ensures WellSet(CFG)
  {
    assert CFG.levels[0] == SMALL;
  }

  lemma {:induction false} SmallCanStart(id: PlayerId)
    ensures Suits([SMALL], SETTINGS, [id]) && CanStart([SMALL], SETTINGS, [id], 0, DRAWS)
  {
    var def := Realised(SMALL, DRAWS.draw);
    assert def.blocks == [];
    var l := StartOfLevel(SETTINGS, def, [id]);
    assert l.Free(Point(2, 2));
    assert Point(2, 2) in DRAWS.corners;
  }

  // ---------------------------------------------------------------- a game begins

  const COME: Event := Connect
  const JOIN: Event := Event.AddPlayer(0, "a", DRAWS, DRAWS)
  const READY: Event := Event.SetReadiness(0, true, DRAWS, DRAWS)

  /** One ready client whose only player waits for the game to begin. */
  ghost predicate Waiting(st: ServerState) {
    && st.connections == [Connection(0, true)] && st.nextClient == 1
    && st.players == [PlayerState(0, "a", 0, NO_TURNS)] && st.nextPlayer == 1
    && st.game.Some? && st.timers == [0] && !st.pausing && !st.paused
  }

  const JOINED: ServerState :=
    ServerState([Connection(0, false)], 1, [PlayerState(0, "a", 0, NO_TURNS)], 1, None, [], false, false, NO_SCORES,
                map[], [PlayerAdded(0, "a")])

  lemma {:induction false} Joining()
    ensures Run(CFG, IDLE, [COME] + [JOIN]) && AfterAll(CFG, IDLE, [COME] + [JOIN]) == JOINED
  {
    var s := Happens(CFG, IDLE, COME);
    assert s.connections == [Connection(0, false)];
    assert Connected(s.connections, 0) by { assert s.connections[0].id == 0; }
    assert Joined(s, 0, "a") == JOINED;
    assert !JOINED.connections[0].ready;
    assert CanHappen(CFG, s, JOIN) && Happens(CFG, s, JOIN) == JOINED;
    hide CanHappen, Happens;
    OneMoreEvent(CFG, IDLE, [], COME);
    assert [] + [COME] == [COME];
    OneMoreEvent(CFG, IDLE, [COME], JOIN);
  }

  /** The client gets ready, the game begins, and its countdown is under way. */
  lemma {:induction false} Beginning()
    ensures CanHappen(CFG, JOINED, READY) && Waiting(Happens(CFG, JOINED, READY))
    ensures
      var st := Happens(CFG, JOINED, READY);
      && st.game.value == Started([SMALL], SETTINGS, [0], 0, DRAWS)
      && st.scorer == FreshScores([0], 1)
  {
    var s := ReadinessSet(JOINED, 0, true);
    assert s.connections == [Connection(0, true)];
    assert Connected(JOINED.connections, 0) by { assert JOINED.connections[0].id == 0; }
    assert Ids(s.players) == [0];
    SmallCanStart(0);
    hide Started, CanStart, Suits, Tickable, Fits, Serves, Announcement;
    assert StartServed(CFG, s, DRAWS);
    var begun := GameBegun(CFG, s, DRAWS);
    assert TickSafe(begun, 1) && !Plays(begun, 1);
    assert StartDraws(CFG, s, DRAWS, DRAWS) && StartSurvives(CFG, s, DRAWS, DRAWS);
    assert Happens(CFG, JOINED, READY) == TickOf(CFG, begun, 1, DRAWS);
  }

  const BEGIN: seq<Event> := [COME] + [JOIN] + [READY]

  lemma {:induction false} BegunRun()
    ensures CanHappen(CFG, JOINED, READY)
    ensures Run(CFG, IDLE, BEGIN) && AfterAll(CFG, IDLE, BEGIN) == Happens(CFG, JOINED, READY)
  {
    Joining();
    Beginning();
    hide Run, AfterAll, CanHappen, Happens, Waiting;
    OneMoreEvent(CFG, IDLE, [COME] + [JOIN], READY);
  }

  // ---------------------------------------------------------------- the last client leaves a paused game

  const PAUSE: Event := PauseCommand(0, 0, DRAWS)
  const FIRE: Event := Event.TimerFires(DRAWS)
  const LEAVE: Event := Disconnect(0)

  /** The only client has paused the game. */
  ghost predicate Resting(st: ServerState) {
    st.connections == [Connection(0, true)] && st.game.Some? && st.paused
  }

  lemma {:induction false} Pausing(st: ServerState)
    requires Waiting(st)
    ensures CanHappen(CFG, st, PAUSE) && Happens(CFG, st, PAUSE) == st.(pausing := true)
  {
    assert Connected(st.connections, 0) by { assert st.connections[0].id == 0; }
    assert Commands(st, 0, 0, 0);
  }

  lemma {:induction false} GoingToRest(st: ServerState)
    requires Waiting(st)
    ensures CanHappen(CFG, st.(pausing := true), FIRE) && Resting(Happens(CFG, st.(pausing := true), FIRE))
  {
  }

  lemma {:induction false} Leaving(st: ServerState)
    requires Resting(st)
    ensures CanHappen(CFG, st, LEAVE) && LeavesPaused(st, LEAVE)
  {
    assert Connected(st.connections, 0) by { assert st.connections[0].id == 0; }
    assert st.connections[1..] == [];
  }

  /** The server can be brought to run a tick without a game: eight events lead to a state in which the
      next pause command is allowed and not survived. */
  lemma {:induction false} TheServerCanLoseItsGame(name: string) returns (events: seq<Event>, pause: Event)
    ensures Run(CFG, IDLE, events) && |events| == 8
    ensures pause.PauseCommand? && Allowed(CFG, AfterAll(CFG, IDLE, events), pause)
    ensures TicksWithoutGame(AfterAll(CFG, IDLE, events), pause)
    ensures !Survives(CFG, AfterAll(CFG, IDLE, events), pause)
  {
    BegunRun();
    Beginning();
    var st := AfterAll(CFG, IDLE, BEGIN);
    Pausing(st);
    GoingToRest(st);
    Leaving(Happens(CFG, st.(pausing := true), FIRE));
    hide Run, AfterAll, CanHappen, Happens, Waiting, Resting, LeavesPaused, TicksWithoutGame;
    OneMoreEvent(CFG, IDLE, BEGIN, PAUSE);
    OneMoreEvent(CFG, IDLE, BEGIN + [PAUSE], FIRE);
    LeavingAPausedGameIsFatal(CFG, BEGIN + [PAUSE] + [FIRE], LEAVE, name, DRAWS, DRAWS, DRAWS);
    var last := AfterAll(CFG, IDLE, BEGIN + [PAUSE] + [FIRE]);
    events := BEGIN + [PAUSE] + [FIRE] + [LEAVE] + [Connect] + [Event.AddPlayer(last.nextClient, name, DRAWS, DRAWS)];
    pause := PauseCommand(last.nextClient, last.nextPlayer, DRAWS);
  }

  // ---------------------------------------------------------------- too many players

  const SECOND: Event := Event.AddPlayer(0, "b", DRAWS, DRAWS)

  /** A second player on a level with one start: getting ready is allowed and not survived. */
  lemma {:induction false} TheServerCanBeOvercrowded()
    ensures Run(CFG, IDLE, [COME] + [JOIN] + [SECOND])
    ensures
      var st := AfterAll(CFG, IDLE, [COME] + [JOIN] + [SECOND]);
      && Allowed(CFG, st, READY) && Overcrowded(CFG, ReadinessSet(st, 0, true)) && !Survives(CFG, st, READY)
  {
    Joining();
    var s := Joined(JOINED, 0, "b");
    assert Connected(JOINED.connections, 0) by { assert JOINED.connections[0].id == 0; }
    assert s.connections == JOINED.connections && !s.connections[0].ready;
    assert |s.players| == 2;
    assert CanHappen(CFG, JOINED, SECOND) && Happens(CFG, JOINED, SECOND) == s;
    var r := ReadinessSet(s, 0, true);
    assert r.connections == [Connection(0, true)] && WillStart(r);
    assert CFG.levels[0] == SMALL && |Ids(r.players)| == 2;
    hide CanHappen, Happens, Run, AfterAll, Suits;
    OneMoreEvent(CFG, IDLE, [COME] + [JOIN], SECOND);
  }

  // ---------------------------------------------------------------- a newcomer at the end of a game

  /** The only snake is about to run into the border, with its player's last life. */
  lemma {:induction false} FirstSnakeDies(moves: Moves)
    requires 0 !in moves
    requires Suits([SMALL], SETTINGS, [0]) && CanStart([SMALL], SETTINGS, [0], 0, DRAWS)
    ensures
      var l := Started([SMALL], SETTINGS, [0], 0, DRAWS).level;
      l.Ready() && LosesLastLife(l, moves, FreshScores([0], 1))
  {
    var l := Started([SMALL], SETTINGS, [0], 0, DRAWS).level;
    FirstLevel();
    hide Started, CanStart, Suits, LosesLastLife;
    BeforeAWall(l, moves);
  }

  /** The level that the game starts with. */
  lemma {:induction false} FirstLevel()
    requires Suits([SMALL], SETTINGS, [0]) && CanStart([SMALL], SETTINGS, [0], 0, DRAWS)
    ensures
      var l := Started([SMALL], SETTINGS, [0], 0, DRAWS).level;
      && l.Ready() && l.def.w == l.def.h == 5
      && l.snakes == [SnakeState(0, [Point(1, 1)], Direction.Left, 0)]
      && l.grid[Point(0, 1)] == WallCell
  {
    var def := Realised(SMALL, DRAWS.draw);
    var start := StartOfLevel(SETTINGS, def, [0]);
    assert start.snakes == [NewSnake(0, SMALL.starts[0], 1)];
    hide NewSnake, Realised, LevelState.Placeable;
    FirstNumberSpares(start);
  }

  lemma {:induction false} BeforeAWall(l: LevelState, moves: Moves)
    requires l.Ready() && l.def.w == l.def.h == 5
    requires l.snakes == [SnakeState(0, [Point(1, 1)], Direction.Left, 0)] && l.grid[Point(0, 1)] == WallCell
    requires 0 !in moves
    ensures LosesLastLife(l, moves, FreshScores([0], 1))
  {
    var t := l.TurnPhase(moves);
    TurnKeepsReady(l, moves);
    RedirectedSnake(l.snakes[0], moves);
    assert t.snakes[0] == l.snakes[0] && t.Heads()[0] == Point(0, 1) && t.Fates()[0] == Dead;
    MeetsItsFate(Dead, t.snakes, t.Fates(), 0);
    hide Meeting, LevelState.Fates, LevelState.Heads, LevelState.TurnPhase;
    assert 0 in Casualties(l, moves);
  }

  /** Placing the first number leaves the walls alone. */
  lemma {:induction false} FirstNumberSpares(l: LevelState)
    requires l.Placeable(DRAWS.corners) && Point(0, 1) in l.grid && l.grid[Point(0, 1)] == WallCell
    ensures l.WithNumber(l.Drawn(DRAWS.corners, 1)).grid[Point(0, 1)] == WallCell
  {
  }

  /** A player joins during the game, and the only player of the game runs into the border with its last
      life: the tick is allowed and not survived. */
  lemma {:induction false} TheServerCanMissAScore()
    ensures Run(CFG, IDLE, BEGIN + [SECOND])
    ensures
      var st := AfterAll(CFG, IDLE, BEGIN + [SECOND]);
      && Allowed(CFG, st, FIRE) && HasNewcomer(st) && Fails(CFG, st, FIRE) && !Survives(CFG, st, FIRE)
  {
    BegunRun();
    Beginning();
    var st := AfterAll(CFG, IDLE, BEGIN);
    SecondJoins(st);
    hide CanHappen, Happens, Run, AfterAll, Waiting, Started, Suits, CanStart, Fails, Survives, Allowed, HasNewcomer,
         Kept, GameKept, DistinctPlayers, FreshScores;
    OneMoreEvent(CFG, IDLE, BEGIN, SECOND);
    KeptAfter(BEGIN + [SECOND]);
    SmallCanStart(0);
    LastLifeLost(AfterAll(CFG, IDLE, BEGIN + [SECOND]));
  }

  lemma {:induction false} KeptAfter(events: seq<Event>)
    requires Run(CFG, IDLE, events)
    ensures GameKept(AfterAll(CFG, IDLE, events))
  {
    hide Run, AfterAll;
    RunKeeps(CFG, IDLE, events);
  }

  lemma {:induction false} SecondJoins(st: ServerState)
    requires Waiting(st)
    ensures CanHappen(CFG, st, SECOND)
    ensures
      var s := Happens(CFG, st, SECOND);
      && s.players == [PlayerState(0, "a", 0, NO_TURNS), PlayerState(1, "b", 0, NO_TURNS)]
      && s.game == st.game && s.scorer == st.scorer && s.timers == [0] && !s.pausing
  {
    assert Connected(st.connections, 0) by { assert st.connections[0].id == 0; }
    assert Joined(st, 0, "b").game == st.game;
    hide Serves, Tickable, Fits;
  }

  lemma {:induction false} LastLifeLost(st: ServerState)
    requires st.players == [PlayerState(0, "a", 0, NO_TURNS), PlayerState(1, "b", 0, NO_TURNS)]
    requires st.timers == [0] && !st.pausing && GameKept(st)
    requires Suits([SMALL], SETTINGS, [0]) && CanStart([SMALL], SETTINGS, [0], 0, DRAWS)
    requires st.game == Some(Started([SMALL], SETTINGS, [0], 0, DRAWS)) && st.scorer == FreshScores([0], 1)
    ensures Allowed(CFG, st, FIRE) && HasNewcomer(st) && Fails(CFG, st, FIRE) && !Survives(CFG, st, FIRE)
  {
    hide Suits, CanStart, Started, GameKept, LosesLastLife, MovesOf, LevelState.Ready, Allowed, Fails, Survives,
         TickFails, FreshScores, HasNewcomer;
    NobodyTurns(st.players);
    SecondIsNew(st);
    FirstSnakeDies(MovesOf(st.players));
    EndingWithANewcomerFails(st);
    FiringFails(CFG, st, DRAWS);
  }

  lemma {:induction false} SecondIsNew(st: ServerState)
    requires |st.players| == 2 && st.players[1].id == 1 && st.scorer == FreshScores([0], 1)
    ensures HasNewcomer(st)
  {
    assert st.players[1].id !in st.scorer.scores;
  }

  lemma {:induction false} NobodyTurns(players: seq<PlayerState>)
    requires |players| == 2 && players[0].turns == NO_TURNS && players[1].turns == NO_TURNS
    ensures MovesOf(players) == map[]
  {
    assert players[..1][..0] == [];
    assert MovesOf(players[..1]) == map[];
  }
}
