/** What happens to the server, in plain terms: when a game starts and with what, what a countdown does, when
    a game ends, who is there after an event, and whose pause counts. */
module ServerMeaning {
  import opened Geometry
  import opened Definitions
  import opened Scores
  import opened HighScores
  import opened Snakes
  import opened LevelModel
  import opened GameModel
  import opened GameRuns
  import opened TickMeaning
  import opened TurnQueues
  import opened ServerModel
  import opened ServerInvariants
  import opened ServerRosters
  import opened ServerSurvival
  import opened TurnCommands
  import opened Delivery
  import opened ClientRosters

  // ---------------------------------------------------------------- when a game starts

  /** A connection is ready, once the event has set its readiness. */
  predicate ReadyThen(c: Connection, e: Event) {
    if e.SetReadiness? && c.id == e.client then e.ready else c.ready
  }

  lemma {:induction false} PlayIsQuiet(cfg: Config, st: ServerState, choice: Choice)
    requires PlaySafe(st) && Serves(choice, st.game.value, MovesOf(st.players), st.scorer)
    ensures st.log <= Played(cfg, st, choice).log && Quiet(Played(cfg, st, choice).log[|st.log|..])
  {
    hide Tickable, Serves, MovesOf, Played, Fits, AllScored, Ends, Announced;
    var g, moves := st.game.value, MovesOf(st.players);
    var last := PlayedLog(cfg, st, choice);
    var announced := Announced(g, moves, st.scorer, choice);
    AnnouncedIsQuiet(g, moves, st.scorer, choice);
    assert Played(cfg, st, choice).log[|st.log|..] == [TickMessage(moves)] + announced + last;
    QuietParts([TickMessage(moves)] + announced, last);
    QuietParts([TickMessage(moves)], announced);
  }

  lemma {:induction false} AnnouncedIsQuiet(g: GameState, moves: Moves, sb: ScoreBoard, choice: Choice)
    requires Tickable(g, sb) && Serves(choice, g, moves, sb)
    ensures Quiet(Announced(g, moves, sb, choice))
  {
    hide Tickable, Serves, GameTicked, ProgressedResult, AsksForNumber;
    TickableIsReady(g, sb);
  }

  /** No tick starts a game. */
  lemma {:induction false} TickIsQuiet(cfg: Config, st: ServerState, countdown: nat, choice: Choice)
    requires TickSafe(st, countdown) && TickServed(st, countdown, choice)
    ensures st.log <= TickOf(cfg, st, countdown, choice).log
    ensures Quiet(TickOf(cfg, st, countdown, choice).log[|st.log|..])
  {
    hide PlaySafe, Serves, MovesOf, Played;
    if Plays(st, countdown) {
      PlaySafeWhilePausing(st);
      PlayIsQuiet(cfg, st.(pausing := false, timers := []), choice);
    }
  }

  lemma {:induction false} StartsOrNot(cfg: Config, before: ServerState, st: ServerState, starting: Choice,
                                       ticking: Choice)
    requires StartDraws(cfg, st, starting, ticking) && StartSurvives(cfg, st, starting, ticking)
    requires before.log <= st.log && Quiet(st.log[|before.log|..])
    ensures before.log <= StartChecked(cfg, st, starting, ticking).log
    ensures Quiet(StartChecked(cfg, st, starting, ticking).log[|before.log|..]) <==> !WillStart(st)
  {
    hide TickSafe, TickServed, StartServed, TickOf, WillStart, Quiet;
    if WillStart(st) {
      StartIsAnnounced(cfg, st, starting, ticking);
      LoudBehind(before.log, st.log, cfg.settings, StartChecked(cfg, st, starting, ticking).log);
    }
  }

  lemma {:induction false} JoinedWillStart(st: ServerState, e: Event)
    requires e.AddPlayer? && Connected(st.connections, e.client)
    ensures
      WillStart(Joined(st, e.client, e.name)) <==>
        st.game.None? && forall k :: 0 <= k < |st.connections| ==> ReadyThen(st.connections[k], e)
  {
  }

  lemma {:induction false} ReadiedWillStart(st: ServerState, e: Event)
    requires e.SetReadiness? && Connected(st.connections, e.client)
    ensures
      WillStart(ReadinessSet(st, e.client, e.ready)) <==>
        st.game.None? && st.players != []
        && forall k :: 0 <= k < |st.connections| ==> ReadyThen(st.connections[k], e)
  {
    var s := ReadinessSet(st, e.client, e.ready);
    assert forall k :: 0 <= k < |st.connections| ==> s.connections[k].ready == ReadyThen(st.connections[k], e);
  }

  /** An event starts a game exactly if a player is added or a readiness set, there is no game, there is some
      player, and every connection is ready, with the readiness just set. No other event ever starts one. */
  lemma {:induction false} GameStartsExactlyIf(cfg: Config, st: ServerState, e: Event)
    requires CanHappen(cfg, st, e)
    ensures st.log <= Happens(cfg, st, e).log
    ensures
      (exists k :: |st.log| <= k < |Happens(cfg, st, e).log| && Happens(cfg, st, e).log[k].GameStart?) <==>
        && (e.AddPlayer? || (e.SetReadiness? && st.players != [])) && st.game.None?
        && forall k :: 0 <= k < |st.connections| ==> ReadyThen(st.connections[k], e)
  {
    hide TickServed, TickSafe, StartServed, StartSafe, StartFits, StartDraws, StartSurvives, StartChecked, TickOf,
         Turned, Departed, WillStart, Obeys, Connected, Quiet, ReadyThen, HasGameStart;
    var s := Happens(cfg, st, e);
    match e {
      case AddPlayer(client, name, c, d) =>
        JoinedWillStart(st, e);
        JoiningIsQuiet(st, client, name);
        StartsOrNot(cfg, st, Joined(st, client, name), c, d);
      case SetReadiness(client, ready, c, d) =>
        ReadiedWillStart(st, e);
        ReadyingIsNotNoted(st, client, ready, []);
        StartsOrNot(cfg, st, ReadinessSet(st, client, ready), c, d);
      case PauseCommand(client, player, c) =>
        if Obeys(st, client, player) && st.paused {
          TickIsQuiet(cfg, Unpaused(st), 0, c);
        } else {
          NothingIsQuiet(st.log);
        }
      case TimerFires(c) =>
        TimersDoNotMatter(st, c);
        TickIsQuiet(cfg, st.(timers := st.timers[1..]), st.timers[0], c);
      case Disconnect(client) =>
        LeavingKeepsTheLog(st, client);
        NothingIsQuiet(st.log);
      case _ => NothingIsQuiet(st.log);
    }
    QuietHasNoStart(s.log, |st.log|);
    StartIsHeard(s.log, |st.log|);
  }

  lemma {:induction false} StartIsHeard(log: seq<Message>, start: nat)
    ensures HasGameStart(log, start) <==> exists k :: start <= k < |log| && log[k].GameStart?
  {
  }

  lemma {:induction false} NothingIsQuiet(log: seq<Message>)
    ensures Quiet(log[|log|..])
  {
  }

  lemma {:induction false} LeavingKeepsTheLog(st: ServerState, client: ClientId)
    ensures Departed(st, client).log == st.log
  {
  }

  lemma {:induction false} JoiningIsQuiet(st: ServerState, client: ClientId, name: string)
    ensures
      var s := Joined(st, client, name);
      st.log <= s.log && Quiet(s.log[|st.log|..])
  {
  }

  // ---------------------------------------------------------------- what a game starts with

  /** A game as it starts: the pack and the settings of the server, the players in their order, on the start
      level, with all snakes on their starts; nobody has points, and everybody has all lives and no turns waiting. */
  ghost predicate StartsOut(cfg: Config, s: ServerState) {
    && s.game.Some? && OnItsLevel(s.game.value) && Afresh(s.game.value)
    && s.game.value.levels == cfg.levels && s.game.value.settings == cfg.settings
    && s.game.value.players == Ids(s.players) && s.game.value.levelId == cfg.settings.startLevel
    && (forall id :: id in s.scorer.scores <==> id in Ids(s.players))
    && (forall i :: 0 <= i < |s.players| ==>
          && s.players[i].turns == NO_TURNS
          && s.players[i].id in s.scorer.scores && s.scorer.scores[s.players[i].id] == 0
          && s.players[i].id in s.scorer.lives && s.scorer.lives[s.players[i].id] == cfg.settings.startLives)
  }

  lemma {:induction false} BegunStartsOut(cfg: Config, st: ServerState, choice: Choice)
    requires StartServed(cfg, st, choice)
    ensures StartsOut(cfg, GameBegun(cfg, st, choice))
    ensures
      var s := GameBegun(cfg, st, choice);
      && s.pausing == st.pausing
      && s.log == st.log + [GameStart(cfg.settings), LevelStart(s.game.value.level.def),
                            NewNumber(s.game.value.level.number)]
  {
    hide CanStart, Started, Afresh, OnItsLevel, Ids, WellMade;
    var ids := Ids(st.players);
    StartedFields(cfg.levels, cfg.settings, ids, cfg.settings.startLevel, choice);
    StartedAfresh(cfg.levels, cfg.settings, ids, cfg.settings.startLevel, choice);
    StartedOnItsLevel(cfg.levels, cfg.settings, ids, cfg.settings.startLevel, choice);
    SameIds(AllReset(st.players), st.players);
    MembersOf(AllReset(st.players));
  }

  lemma {:induction false} SameIds(players: seq<PlayerState>, others: seq<PlayerState>)
    requires |players| == |others| && forall i :: 0 <= i < |players| ==> players[i].id == others[i].id
    ensures Ids(players) == Ids(others)
  {
  }

  lemma {:induction false} MembersOf(players: seq<PlayerState>)
    ensures forall i :: 0 <= i < |players| ==> players[i].id in Ids(players)
  {
    forall i | 0 <= i < |players|
      ensures players[i].id in Ids(players)
    {
      assert Ids(players)[i] == players[i].id;
    }
  }

  lemma {:induction false} StillStartsOut(cfg: Config, st: ServerState, log: seq<Message>, timers: seq<nat>)
    requires StartsOut(cfg, st)
    ensures StartsOut(cfg, st.(log := log, players := AllReset(st.players), timers := timers))
  {
    hide OnItsLevel, Afresh, Ids;
    SameIds(AllReset(st.players), st.players);
  }

  lemma {:induction false} CountingTick(cfg: Config, st: ServerState, countdown: nat, choice: Choice)
    requires TickSafe(st, countdown) && TickServed(st, countdown, choice) && !st.pausing && countdown > 0
    ensures TickOf(cfg, st, countdown, choice)
         == st.(log := st.log + [Countdown(countdown)], players := AllReset(st.players), timers := [countdown - 1])
  {
    hide PlaySafe, Played;
  }

  /** Unless a pause has been asked for, a game starts with a countdown, if there is to be one. */
  lemma {:induction false} StartInPlainTerms(cfg: Config, st: ServerState, starting: Choice, ticking: Choice)
    requires StartDraws(cfg, st, starting, ticking) && StartSurvives(cfg, st, starting, ticking) && WillStart(st)
    requires !st.pausing && cfg.countdown > 0
    ensures
      var s := StartChecked(cfg, st, starting, ticking);
      && StartsOut(cfg, s) && s.timers == [cfg.countdown - 1]
      && s.log == st.log + [GameStart(cfg.settings), LevelStart(s.game.value.level.def),
                            NewNumber(s.game.value.level.number), Countdown(cfg.countdown)]
  {
    hide GameBegun, StartServed, WillStart, StartsOut, TickSafe, TickServed, TickOf, AllReset;
    BegunStartsOut(cfg, st, starting);
    var begun := GameBegun(cfg, st, starting);
    CountingTick(cfg, begun, cfg.countdown, ticking);
    var log, timers := begun.log + [Countdown(cfg.countdown)], [cfg.countdown - 1];
    StillStartsOut(cfg, begun, log, timers);
    assert begun.game.Some? by { GameStartsOut(cfg, begun); }
  }

  lemma {:induction false} GameStartsOut(cfg: Config, st: ServerState)
    requires StartsOut(cfg, st)
    ensures st.game.Some?
  {
  }

  /** The last four messages: the start of the game, its level and number, and the first count. */
  ghost predicate StartIsTold(cfg: Config, before: seq<Message>, s: ServerState) {
    && s.game.Some? && |s.log| >= |before| + 4
    && s.log[|s.log| - 4..] == [GameStart(cfg.settings), LevelStart(s.game.value.level.def),
                                NewNumber(s.game.value.level.number), Countdown(cfg.countdown)]
  }

  lemma {:induction false} StartAfter(cfg: Config, before: seq<Message>, st: ServerState, starting: Choice,
                                      ticking: Choice)
    requires StartDraws(cfg, st, starting, ticking) && StartSurvives(cfg, st, starting, ticking) && WillStart(st)
    requires !st.pausing && cfg.countdown > 0 && before <= st.log
    ensures
      var s := StartChecked(cfg, st, starting, ticking);
      && StartsOut(cfg, s) && s.timers == [cfg.countdown - 1] && StartIsTold(cfg, before, s)
  {
    hide GameBegun, StartServed, WillStart, StartsOut, TickSafe, TickServed, TickOf;
    StartInPlainTerms(cfg, st, starting, ticking);
    GameStartsOut(cfg, StartChecked(cfg, st, starting, ticking));
  }

  /** What the clients hear of the start of a game, and what it starts with. */
  lemma {:induction false} GameStartInPlainTerms(cfg: Config, st: ServerState, e: Event)
    requires CanHappen(cfg, st, e) && !st.pausing && cfg.countdown > 0
    requires exists k :: |st.log| <= k < |Happens(cfg, st, e).log| && Happens(cfg, st, e).log[k].GameStart?
    ensures
      var s := Happens(cfg, st, e);
      && StartsOut(cfg, s) && s.timers == [cfg.countdown - 1] && StartIsTold(cfg, st.log, s)
  {
    GameStartsExactlyIf(cfg, st, e);
    hide TickServed, TickSafe, StartServed, StartSafe, StartFits, StartDraws, StartSurvives, StartChecked, TickOf,
         WillStart, StartsOut, ReadyThen, StartIsTold;
    match e {
      case AddPlayer(client, name, c, d) =>
        JoinedWillStart(st, e);
        StartAfter(cfg, st.log, Joined(st, client, name), c, d);
      case SetReadiness(client, ready, c, d) =>
        ReadiedWillStart(st, e);
        StartAfter(cfg, st.log, ReadinessSet(st, client, ready), c, d);
      case _ =>
    }
  }

  // ---------------------------------------------------------------- countdowns

  /** The messages of n ticks of a countdown from c. */
  function Downs(c: nat, n: nat): (messages: seq<Message>)
    requires n <= c
    ensures |messages| == n && forall k :: 0 <= k < n ==> messages[k] == Countdown(c - k)
  {
    seq(n, k requires 0 <= k < n => Countdown(c - k))
  }

  function Fires(choices: seq<Choice>): (events: seq<Event>)
    ensures |events| == |choices| && forall k :: 0 <= k < |events| ==> events[k] == Event.TimerFires(choices[k])
  {
    seq(|choices|, k requires 0 <= k < |choices| => Event.TimerFires(choices[k]))
  }

  lemma {:induction false} CountdownTick(cfg: Config, st: ServerState, choice: Choice)
    requires st.game.Some? && !st.pausing && |st.timers| == 1 && st.timers[0] > 0
    ensures CanHappen(cfg, st, Event.TimerFires(choice))
    ensures Happens(cfg, st, Event.TimerFires(choice))
         == st.(log := st.log + [Countdown(st.timers[0])], players := AllReset(st.players),
                timers := [st.timers[0] - 1])
  {
    hide PlaySafe;
  }

  /** The state after n ticks of a countdown. */
  function CountedBy(st: ServerState, n: nat): ServerState
    requires |st.timers| == 1 && n <= st.timers[0]
  {
    st.(log := st.log + Downs(st.timers[0], n),
        players := if n == 0 then st.players else AllReset(st.players),
        timers := [st.timers[0] - n])
  }

  lemma {:induction false} CountedNever(st: ServerState)
    requires |st.timers| == 1
    ensures CountedBy(st, 0) == st && Fires([]) == []
  {
    assert Downs(st.timers[0], 0) == [] && st.timers == [st.timers[0]];
  }

  lemma {:induction false} CountedAgain(st: ServerState, n: nat)
    requires |st.timers| == 1 && 0 < n <= st.timers[0]
    ensures CountedBy(CountedOnce(st), n - 1) == CountedBy(st, n)
  {
    hide Downs, AllReset;
    DownsAgain(st.log, st.timers[0], n);
    ResetTwice(st.players);
  }

  /** While nobody asks for a pause, a countdown goes down by one with every wait of the timer, every count
      is sent to all clients, and nothing is played. */
  lemma {:induction false} CountdownRuns(cfg: Config, st: ServerState, choices: seq<Choice>)
    requires st.game.Some? && !st.pausing && |st.timers| == 1 && |choices| <= st.timers[0]
    ensures Run(cfg, st, Fires(choices)) && AfterAll(cfg, st, Fires(choices)) == CountedBy(st, |choices|)
    decreases |choices|
  {
    if choices == [] {
      CountedNever(st);
    } else {
      hide CanHappen, Happens, AllReset, Fires, Run, AfterAll, CountedBy;
      CountdownTick(cfg, st, choices[0]);
      CountdownRuns(cfg, CountedOnce(st), choices[1..]);
      FiresAgain(choices);
      RunOfOneMore(cfg, st, Fires(choices));
      CountedAgain(st, |choices|);
    }
  }

  function CountedOnce(st: ServerState): ServerState
    requires |st.timers| == 1 && st.timers[0] > 0
  {
    st.(log := st.log + [Countdown(st.timers[0])], players := AllReset(st.players), timers := [st.timers[0] - 1])
  }

  lemma {:induction false} FiresAgain(choices: seq<Choice>)
    requires choices != []
    ensures Fires(choices) != [] && Fires(choices)[0] == Event.TimerFires(choices[0])
    ensures Fires(choices)[1..] == Fires(choices[1..])
  {
  }

  lemma {:induction false} DownsAgain(log: seq<Message>, c: nat, n: nat)
    requires 0 < n <= c
    ensures log + Downs(c, n) == log + [Countdown(c)] + Downs(c - 1, n - 1)
  {
    assert Downs(c, n) == [Countdown(c)] + Downs(c - 1, n - 1);
  }

  lemma {:induction false} ResetTwice(players: seq<PlayerState>)
    ensures AllReset(AllReset(players)) == AllReset(players)
  {
  }

  // ---------------------------------------------------------------- ticks

  /** Somebody dies with a single life left. */
  ghost predicate Ruins(l: LevelState, moves: Moves, sb: ScoreBoard)
    requires l.Ready()
  {
    exists i :: 0 <= i < |l.snakes| && Dies(l, moves, i)
                && l.snakes[i].player in sb.lives && sb.lives[l.snakes[i].player] == 1
  }

  /** Somebody dies, or somebody eats the ninth number. */
  ghost predicate Restarts(l: LevelState, moves: Moves)
    requires l.Ready()
  {
    || (exists i :: 0 <= i < |l.snakes| && Dies(l, moves, i))
    || (l.number.value == 9 && exists i :: 0 <= i < |l.snakes| && Eats(l, moves, i))
  }

  /** A tick that plays: all clients hear the moves. If somebody dies with a single life left, the game is over
      and gone, no timer is set, nobody has a score and everybody is unready. If the level is lost or completed,
      a countdown follows and no turns wait; otherwise the next tick plays at once. */
  ghost predicate PlaysOut(cfg: Config, st: ServerState, s: ServerState) {
    && st.game.Some? && st.game.value.level.Ready()
    && var l, moves := st.game.value.level, MovesOf(st.players);
    && !s.pausing && s.paused == st.paused
    && st.log + [TickMessage(moves)] <= s.log
    && (s.game.None? <==> Ruins(l, moves, st.scorer))
    && (s.game.None? ==>
          && s.timers == [] && s.scorer == NO_SCORES && |s.connections| == |st.connections|
          && (forall k :: 0 <= k < |s.connections| ==> s.connections[k] == Connection(st.connections[k].id, false)))
    && (s.game.Some? ==>
          s.timers == [if Restarts(l, moves) then cfg.countdown else 0] && s.connections == st.connections)
    && (s.game.Some? && Restarts(l, moves) ==> forall i :: 0 <= i < |s.players| ==> s.players[i].turns == NO_TURNS)
  }

  lemma {:induction false} PlayResult(st: ServerState)
    requires PlaySafe(st)
    ensures st.game.value.level.Ready()
    ensures
      var l, moves := st.game.value.level, MovesOf(st.players);
      var result := ProgressedResult(l, moves, st.scorer);
      && (result == GameOver <==> Ruins(l, moves, st.scorer))
      && (result in {AdvanceLevel, Dead} <==> Restarts(l, moves) && !Ruins(l, moves, st.scorer))
      && (result != GameOver ==> (result.Rank() >= AdvanceLevel.Rank() <==> result in {AdvanceLevel, Dead}))
  {
    hide Fits, MovesOf, ProgressedResult, Dies, Eats, AllScored, LevelState.Ready;
    TickableIsScorable(st.game.value, st.scorer);
    ResultInPlainTerms(st.game.value.level, MovesOf(st.players), st.scorer);
  }

  lemma {:induction false} TickableIsScorable(g: GameState, sb: ScoreBoard)
    requires Tickable(g, sb)
    ensures g.level.Ready() && g.level.Scorable(sb)
    ensures forall i :: 0 <= i < |g.level.snakes| ==> g.level.snakes[i].player in sb.lives
  {
  }

  /** What is announced after the moves of a tick: a level and its first number, if one starts; otherwise the next
      number, if somebody has eaten and nobody died; otherwise nothing. */
  lemma {:induction false} AnnouncedInPlainTerms(g: GameState, moves: Moves, sb: ScoreBoard, choice: Choice)
    requires Tickable(g, sb) && Serves(choice, g, moves, sb)
    ensures g.level.Ready()
    ensures
      var l, announced := g.level, Announced(g, moves, sb, choice);
      if Ruins(l, moves, sb) then announced == []
      else if Restarts(l, moves) then
        && |announced| == 2 && announced[0].LevelStart?
        && announced[1].NewNumber? && announced[1].number.value == 1
      else if exists i :: 0 <= i < |l.snakes| && Eats(l, moves, i) then
        |announced| == 1 && announced[0].NewNumber? && announced[0].number.value == l.number.value + 1
      else announced == []
  {
    hide Dies, Eats, Started, Ticked, Suits, CanStart, LevelState.Ready, LevelState.Scorable, LevelState.NumberFits,
         LevelState.Placeable, TickedResult;
    TickableIsScorable(g, sb);
    ResultInPlainTerms(g.level, moves, sb);
    var next := NextLevelId(g, moves, sb);
    if next.Some? {
      StartedAfresh(g.levels, g.settings, g.players, next.value, choice);
    }
  }

  /** What a tick that plays does besides playing the level, by its result. */
  lemma {:induction false} PlayedFields(cfg: Config, st: ServerState, choice: Choice)
    requires PlaySafe(st) && Serves(choice, st.game.value, MovesOf(st.players), st.scorer)
    requires st.timers == []
    ensures st.game.value.level.Ready()
    ensures
      var s, result := Played(cfg, st, choice), ProgressedResult(st.game.value.level, MovesOf(st.players), st.scorer);
      && s.pausing == st.pausing && s.paused == st.paused
      && (s.game.None? <==> result == GameOver)
      && (s.game.None? ==>
            s.timers == [] && s.scorer == NO_SCORES && s.connections == AllUnready(st.connections))
      && (s.game.Some? ==>
            && s.timers == [if result.Rank() >= AdvanceLevel.Rank() then cfg.countdown else 0]
            && s.connections == st.connections)
      && (s.game.Some? && result.Rank() >= AdvanceLevel.Rank() ==> s.players == AllReset(AllDequeued(st.players)))
  {
    hide Tickable, Serves, MovesOf, GameTicked, Announced, TickedScores, ProgressedResult, Fits, AllScored, FinalScore,
         WithScore, ReportOn, AllReset, AllDequeued, AllUnready, Unreadied;
    TickableIsReady(st.game.value, st.scorer);
  }

  lemma {:induction false} HeardFirst(log: seq<Message>, m: Message, announced: seq<Message>, last: seq<Message>)
    ensures log + [m] <= log + ([m] + announced) + last
  {
  }

  lemma {:induction false} PlayInPlainTerms(cfg: Config, st: ServerState, choice: Choice)
    requires PlaySafe(st) && Serves(choice, st.game.value, MovesOf(st.players), st.scorer)
    requires !st.pausing && st.timers == []
    ensures PlaysOut(cfg, st, Played(cfg, st, choice))
  {
    hide Tickable, Fits, AllScored, Ends, Serves, MovesOf, Played, Announced, ProgressedResult, Ruins, Restarts,
         AllDequeued, LevelState.Ready;
    PlayResult(st);
    PlayedFields(cfg, st, choice);
    var g, moves := st.game.value, MovesOf(st.players);
    var last := PlayedLog(cfg, st, choice);
    HeardFirst(st.log, TickMessage(moves), Announced(g, moves, st.scorer, choice), last);
  }

  /** What happens when a wait of the timer ends: a game about to be paused comes to rest; a countdown goes
      down, unless a pause has been asked for, which cancels it; otherwise a tick plays. */
  lemma {:induction false} TimerInPlainTerms(cfg: Config, st: ServerState, choice: Choice)
    requires CanHappen(cfg, st, Event.TimerFires(choice))
    ensures
      var left, s := st.timers[0], Happens(cfg, st, Event.TimerFires(choice));
      if st.pausing && left == 0 then s == st.(timers := st.timers[1..], pausing := false, paused := true)
      else if !st.pausing && left > 0 then
        s == st.(log := st.log + [Countdown(left)], players := AllReset(st.players), timers := [left - 1])
      else PlaysOut(cfg, st.(pausing := false, timers := []), s)
  {
    hide PlaySafe, Serves, MovesOf, Played, PlaysOut, AllReset;
    TimersDoNotMatter(st, choice);
    var t := st.(timers := st.timers[1..]);
    if Plays(t, st.timers[0]) {
      PlaySafeWhilePausing(t);
      PlayInPlainTerms(cfg, t.(pausing := false, timers := []), choice);
    }
  }

  // ---------------------------------------------------------------- commands

  /** A pause command for a player of another client changes nothing. One that counts asks for a pause, or
      ends one: all turns are forgotten, and a tick plays at once. */
  lemma {:induction false} PauseInPlainTerms(cfg: Config, st: ServerState, client: ClientId, player: PlayerId,
                                             choice: Choice)
    requires CanHappen(cfg, st, PauseCommand(client, player, choice)) && !(st.pausing && st.paused)
    ensures
      var s := Happens(cfg, st, PauseCommand(client, player, choice));
      if !Owns(st, client, player) then s == st
      else if !st.paused then s == st.(pausing := true)
      else PlaysOut(cfg, st.(paused := false, players := AllReset(st.players), timers := []), s)
  {
    hide PlaySafe, Serves, MovesOf, Played, PlaysOut, AllReset, Obeys, Owns;
    OwnsIsObeys(st, client, player);
    if Obeys(st, client, player) && st.paused {
      var t := Unpaused(st);
      PlaySafeWhilePausing(t);
      PlayInPlainTerms(cfg, t.(timers := []), choice);
    }
  }

  /** A turn command for a player of another client changes nothing; one that counts changes nothing but the
      turns of that player. */
  lemma {:induction false} TurnInPlainTerms(cfg: Config, st: ServerState, client: ClientId, player: PlayerId,
                                            d: Direction)
    requires CanHappen(cfg, st, TurnCommand(client, player, d)) && DistinctPlayers(st)
    ensures
      var s := Happens(cfg, st, TurnCommand(client, player, d));
      && s == st.(players := s.players) && SamePlayers(s.players, st.players)
      && (!Owns(st, client, player) ==> s == st)
      && (forall i :: 0 <= i < |st.players| && st.players[i].id != player ==> s.players[i] == st.players[i])
  {
    hide Obeys, Owns;
    OwnsIsObeys(st, client, player);
  }

  // ---------------------------------------------------------------- who is there

  lemma {:induction false} StartKeepsPlayers(cfg: Config, st: ServerState, starting: Choice, ticking: Choice)
    requires StartDraws(cfg, st, starting, ticking) && StartSurvives(cfg, st, starting, ticking)
    ensures SameRoster(st, StartChecked(cfg, st, starting, ticking))
    ensures StartChecked(cfg, st, starting, ticking).nextPlayer == st.nextPlayer
  {
    hide TickSafe, TickServed, StartServed, TickOf, WillStart;
    if WillStart(st) {
      var begun := GameBegun(cfg, st, starting);
      TickKeepsRoster(cfg, begun, cfg.countdown, ticking);
      TickKeepsNextPlayer(cfg, begun, cfg.countdown, ticking);
    }
  }

  lemma {:induction false} TickKeepsNextPlayer(cfg: Config, st: ServerState, countdown: nat, choice: Choice)
    requires TickSafe(st, countdown) && TickServed(st, countdown, choice)
    ensures TickOf(cfg, st, countdown, choice).nextPlayer == st.nextPlayer
  {
    hide PlaySafe, Serves, Announced, GameTicked, TickedScores, ProgressedResult, FinalScore, WithScore, ReportOn,
         MovesOf;
  }

  /** The connections and players after an event. A client that connects is added behind the others, with a new
      id and unready, unless a game is on. A client that leaves takes exactly its own players along. A player
      is added behind the others, for the client that asks for it and with a new id, unless somebody has its
      name. Nothing else changes who is there. */
  ghost predicate RosterFollows(st: ServerState, e: Event, s: ServerState) {
    match e
    case Connect =>
      && s.players == st.players
      && s.connections == if st.game.Some? then st.connections else st.connections + [Connection(st.nextClient, false)]
    case Disconnect(client) =>
      && (forall p :: p in s.players <==> p in st.players && p.client != client)
      && (forall c :: c in s.connections <==> c in st.connections && c.id != client)
    case AddPlayer(client, name, _, _) =>
      && s.nextPlayer == st.nextPlayer + 1
      && (if exists i :: 0 <= i < |st.players| && st.players[i].name == name then SamePlayers(st.players, s.players)
          else SamePlayers(st.players + [PlayerState(st.nextPlayer, name, client, NO_TURNS)], s.players))
    case _ => SameRoster(st, s)
  }

  lemma {:induction false} JoinedRoster(st: ServerState, client: ClientId, name: string, s: ServerState)
    requires SameRoster(Joined(st, client, name), s) && s.nextPlayer == Joined(st, client, name).nextPlayer
    ensures s.nextPlayer == st.nextPlayer + 1
    ensures
      if exists i :: 0 <= i < |st.players| && st.players[i].name == name then SamePlayers(st.players, s.players)
      else SamePlayers(st.players + [PlayerState(st.nextPlayer, name, client, NO_TURNS)], s.players)
  {
  }

  lemma {:induction false} LeavingRoster(st: ServerState, client: ClientId)
    ensures forall p :: p in Departed(st, client).players <==> p in st.players && p.client != client
    ensures forall c :: c in Departed(st, client).connections <==> c in st.connections && c.id != client
  {
    PlayersOfOthers(st.players, client);
    ConnectionsOfOthers(st.connections, client);
  }

  lemma {:induction false} RosterOnlyOf(st: ServerState, t: ServerState, s: ServerState)
    requires SameRoster(st, t) && SameRoster(t, s)
    ensures SameRoster(st, s)
  {
  }

  lemma {:induction false} RosterKept(st: ServerState)
    ensures SameRoster(st, st) && SameRoster(st, Unpaused(st)) && SameRoster(st, st.(pausing := true))
    ensures st.timers != [] ==> SameRoster(st, st.(timers := st.timers[1..]))
    ensures forall client, ready :: SameRoster(st, ReadinessSet(st, client, ready))
    ensures forall player, d :: SameRoster(st, st.(players := Turned(st.players, player, d)))
  {
  }

  lemma {:induction false} RosterInPlainTerms(cfg: Config, st: ServerState, e: Event)
    requires CanHappen(cfg, st, e)
    ensures RosterFollows(st, e, Happens(cfg, st, e))
  {
    hide TickServed, TickSafe, StartServed, StartSafe, StartFits, StartDraws, StartSurvives, StartChecked, TickOf,
         WillStart, Obeys, Connected, SameRoster, SamePlayers, ReadinessSet, Turned, Unpaused, Joined, Departed;
    var s := Happens(cfg, st, e);
    RosterKept(st);
    match e {
      case Connect =>
      case Disconnect(client) => LeavingRoster(st, client);
      case AddPlayer(client, name, c, d) =>
        StartKeepsPlayers(cfg, Joined(st, client, name), c, d);
        JoinedRoster(st, client, name, s);
      case SetReadiness(client, ready, c, d) =>
        StartKeepsPlayers(cfg, ReadinessSet(st, client, ready), c, d);
        RosterOnlyOf(st, ReadinessSet(st, client, ready), s);
      case TurnCommand(client, player, d) =>
      case PauseCommand(client, player, c) =>
        if Obeys(st, client, player) && st.paused {
          TickKeepsRoster(cfg, Unpaused(st), 0, c);
          RosterOnlyOf(st, Unpaused(st), s);
        }
      case TimerFires(c) =>
        TimersDoNotMatter(st, c);
        var t := st.(timers := st.timers[1..]);
        TickKeepsRoster(cfg, t, st.timers[0], c);
        RosterOnlyOf(st, t, s);
    }
  }

  // ---------------------------------------------------------------- who is ready

  lemma {:induction false} TickUnreadies(cfg: Config, st: ServerState, countdown: nat, choice: Choice)
    requires TickSafe(st, countdown) && TickServed(st, countdown, choice)
    ensures
      var s := TickOf(cfg, st, countdown, choice);
      s.connections == st.connections || (s.game.None? && s.connections == AllUnready(st.connections))
  {
    hide PlaySafe, Serves, Announced, GameTicked, TickedScores, ProgressedResult, FinalScore, WithScore, ReportOn,
         MovesOf, AllReset, AllDequeued;
  }

  /** All connections have the readiness they had, or that has just been set. Or a game has ended with the event,
      and nobody is ready. */
  ghost predicate ReadinessFollows(st: ServerState, e: Event, s: ServerState) {
    && |s.connections| == |st.connections|
    && (forall k :: 0 <= k < |st.connections| ==> s.connections[k].id == st.connections[k].id)
    && (|| (forall k :: 0 <= k < |st.connections| ==> s.connections[k].ready == ReadyThen(st.connections[k], e))
        || (s.game.None? && forall k :: 0 <= k < |s.connections| ==> !s.connections[k].ready))
  }

  lemma {:induction false} StartUnreadies(cfg: Config, st: ServerState, starting: Choice, ticking: Choice)
    requires StartDraws(cfg, st, starting, ticking) && StartSurvives(cfg, st, starting, ticking)
    ensures
      var s := StartChecked(cfg, st, starting, ticking);
      s.connections == st.connections || (s.game.None? && s.connections == AllUnready(st.connections))
  {
    hide TickSafe, TickServed, StartServed, TickOf, WillStart, AllUnready;
    if WillStart(st) {
      TickUnreadies(cfg, GameBegun(cfg, st, starting), cfg.countdown, ticking);
    }
  }

  lemma {:induction false} ReadinessInPlainTerms(cfg: Config, st: ServerState, e: Event)
    requires CanHappen(cfg, st, e) && !e.Connect? && !e.Disconnect?
    ensures ReadinessFollows(st, e, Happens(cfg, st, e))
  {
    hide TickServed, TickSafe, StartServed, StartSafe, StartFits, StartDraws, StartSurvives, StartChecked, TickOf,
         WillStart, Obeys, Connected, Turned;
    match e {
      case AddPlayer(client, name, c, d) => StartUnreadies(cfg, Joined(st, client, name), c, d);
      case SetReadiness(client, ready, c, d) => StartUnreadies(cfg, ReadinessSet(st, client, ready), c, d);
      case PauseCommand(client, player, c) =>
        if Obeys(st, client, player) && st.paused {
          TickUnreadies(cfg, Unpaused(st), 0, c);
        }
      case TimerFires(c) =>
        TimersDoNotMatter(st, c);
        TickUnreadies(cfg, st.(timers := st.timers[1..]), st.timers[0], c);
      case _ =>
    }
  }
}
