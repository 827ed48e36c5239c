/** What clients know of one another's readiness: in every run of the server, the last update sent for a
    connection tells whether it is ready. */
module Readiness {
  import opened Scores
  import opened HighScores
  import opened Snakes
  import opened LevelModel
  import opened GameModel
  import opened ServerModel
  import opened ServerInvariants
  import opened ServerRosters
  import opened ServerSurvival

  /** What a client takes a connection to be after a log: unready until it hears otherwise. */
  function LastHeard(log: seq<Message>, client: ClientId): bool
    decreases |log|
  {
    if log == [] then false
    else
      var last := log[|log| - 1];
      if last.UpdateReadiness? && last.client == client then last.ready else LastHeard(log[..|log| - 1], client)
  }

  /** Everybody's readiness has been announced, and ids not given yet have not been spoken of. */
  ghost predicate WellKnown(st: ServerState) {
    && (forall k :: 0 <= k < |st.connections| ==>
          && st.connections[k].id < st.nextClient
          && st.connections[k].ready == LastHeard(st.log, st.connections[k].id))
    && (forall client :: client >= st.nextClient ==> !LastHeard(st.log, client))
  }

  /** Nobody's readiness is spoken of. */
  predicate Silent(news: seq<Message>) {
    forall k :: 0 <= k < |news| ==> !news[k].UpdateReadiness?
  }

  lemma {:induction false} SilenceChangesNothing(log: seq<Message>, news: seq<Message>, client: ClientId)
    requires Silent(news)
    ensures LastHeard(log + news, client) == LastHeard(log, client)
    decreases |news|
  {
    if news == [] {
      assert log + news == log;
    } else {
      var n := |news| - 1;
      assert (log + news)[..|log| + n] == log + news[..n];
      SilenceChangesNothing(log, news[..n], client);
    }
  }

  lemma {:induction false} SilentStep(st: ServerState, s: ServerState, news: seq<Message>)
    requires WellKnown(st) && Silent(news) && s.log == st.log + news
    requires s.connections == st.connections && s.nextClient == st.nextClient
    ensures WellKnown(s)
  {
    hide LastHeard;
    forall client
      ensures LastHeard(s.log, client) == LastHeard(st.log, client)
    {
      SilenceChangesNothing(st.log, news, client);
    }
  }

  lemma {:induction false} HeardOfOne(log: seq<Message>, client: ClientId, ready: bool, other: ClientId)
    ensures LastHeard(log + [UpdateReadiness(client, ready)], other)
         == if other == client then ready else LastHeard(log, other)
  {
    assert (log + [UpdateReadiness(client, ready)])[..|log|] == log;
  }

  lemma {:induction false} HeardOfAll(log: seq<Message>, connections: seq<Connection>, client: ClientId)
    ensures LastHeard(log + Unreadied(connections), client) ==> LastHeard(log, client)
    ensures Connected(connections, client) ==> !LastHeard(log + Unreadied(connections), client)
    decreases |connections|
  {
    hide LastHeard;
    if connections == [] {
      assert log + Unreadied(connections) == log;
    } else {
      var n := |connections| - 1;
      HeardOfAll(log, connections[..n], client);
      HeardOfOne(log + Unreadied(connections[..n]), connections[n].id, false, client);
      assert log + Unreadied(connections)
          == log + Unreadied(connections[..n]) + [UpdateReadiness(connections[n].id, false)];
      if Connected(connections, client) && connections[n].id != client {
        var k :| 0 <= k < |connections| && connections[k].id == client;
        assert connections[..n][k].id == client;
      }
    }
  }

  /** All connections become unready, and everybody hears of it. */
  lemma {:induction false} UnreadyStep(st: ServerState, s: ServerState, news: seq<Message>)
    requires WellKnown(st) && Silent(news) && s.log == st.log + news + Unreadied(st.connections)
    requires s.connections == AllUnready(st.connections) && s.nextClient == st.nextClient
    ensures WellKnown(s)
  {
    hide LastHeard;
    forall client
      ensures LastHeard(s.log, client) ==> LastHeard(st.log, client)
      ensures Connected(st.connections, client) ==> !LastHeard(s.log, client)
    {
      SilenceChangesNothing(st.log, news, client);
      HeardOfAll(st.log + news, st.connections, client);
    }
  }

  // ---------------------------------------------------------------- ticks

  lemma {:induction false} AnnouncedIsSilent(g: GameState, moves: Moves, sb: ScoreBoard, choice: Choice)
    requires Tickable(g, sb) && Serves(choice, g, moves, sb)
    ensures Silent([TickMessage(moves)] + Announced(g, moves, sb, choice))
  {
    hide Tickable, Serves, GameTicked, ProgressedResult, AsksForNumber;
    TickableIsReady(g, sb);
  }

  /** The connections after a tick that plays, and what is said of them. */
  lemma {:induction false} PlayedConnections(cfg: Config, st: ServerState, choice: Choice) returns (news: seq<Message>)
    requires PlaySafe(st) && Serves(choice, st.game.value, MovesOf(st.players), st.scorer)
    ensures
      var s := Played(cfg, st, choice);
      && Silent(news) && s.nextClient == st.nextClient
      && (|| (s.connections == st.connections && s.log == st.log + news)
          || (s.connections == AllUnready(st.connections) && s.log == st.log + news + Unreadied(st.connections)))
  {
    hide Tickable, Serves, MovesOf, GameTicked, TickedScores, ProgressedResult, Fits, AllScored, FinalScore, WithScore,
         ReportOn, AllReset, AllDequeued, AllUnready, Announced, Unreadied;
    var g, moves := st.game.value, MovesOf(st.players);
    TickableIsReady(g, st.scorer);
    AnnouncedIsSilent(g, moves, st.scorer, choice);
    news := [TickMessage(moves)] + Announced(g, moves, st.scorer, choice);
    if ProgressedResult(g.level, moves, st.scorer) == GameOver {
      news := news + [GameOverMessage(ReportOn(st.highScores, g.settings,
        FinalScore(AllDequeued(st.players), TickedScores(g.settings, g.level, moves, st.scorer), choice.now)))];
      TickedSettings(g, st.scorer, moves, choice);
    }
  }

  lemma {:induction false} TickKeepsKnown(cfg: Config, st: ServerState, countdown: nat, choice: Choice)
    requires TickSafe(st, countdown) && TickServed(st, countdown, choice) && WellKnown(st)
    ensures WellKnown(TickOf(cfg, st, countdown, choice))
  {
    hide PlaySafe, Serves, MovesOf, Played, AllReset, AllUnready, Unreadied, LastHeard;
    var s := TickOf(cfg, st, countdown, choice);
    if Plays(st, countdown) {
      PlaySafeWhilePausing(st);
      var t := st.(pausing := false, timers := []);
      var news := PlayedConnections(cfg, t, choice);
      if s.connections == st.connections && s.log == st.log + news {
        SilentStep(st, s, news);
      } else {
        UnreadyStep(st, s, news);
      }
    } else if Rests(st, countdown) {
      SilentStep(st, s, []);
    } else {
      SilentStep(st, s, [Countdown(countdown)]);
    }
  }

  lemma {:induction false} StartKeepsKnown(cfg: Config, st: ServerState, starting: Choice, ticking: Choice)
    requires StartDraws(cfg, st, starting, ticking) && StartSurvives(cfg, st, starting, ticking) && WellKnown(st)
    ensures WellKnown(StartChecked(cfg, st, starting, ticking))
  {
    hide TickSafe, TickServed, StartServed, TickOf, WillStart, LastHeard, WellKnown;
    if WillStart(st) {
      var s := GameBegun(cfg, st, starting);
      SilentStep(st, s, [GameStart(cfg.settings)] + Announcement(s.game.value.level));
      TickKeepsKnown(cfg, s, cfg.countdown, ticking);
    }
  }

  // ---------------------------------------------------------------- every event

  lemma {:induction false} JoiningKeepsKnown(st: ServerState, client: ClientId, name: string)
    requires WellKnown(st)
    ensures WellKnown(Joined(st, client, name))
  {
    hide LastHeard;
    var s := Joined(st, client, name);
    SilentStep(st, s, s.log[|st.log|..]);
  }

  lemma {:induction false} ReadyingKeepsKnown(st: ServerState, client: ClientId, ready: bool)
    requires WellKnown(st) && Connected(st.connections, client)
    ensures WellKnown(ReadinessSet(st, client, ready))
  {
    hide LastHeard;
    var s := ReadinessSet(st, client, ready);
    forall other
      ensures LastHeard(s.log, other) == if other == client then ready else LastHeard(st.log, other)
    {
      HeardOfOne(st.log, client, ready, other);
    }
  }

  lemma {:induction false} ConnectingKeepsKnown(st: ServerState)
    requires WellKnown(st)
    ensures WellKnown(st.(connections := st.connections + [Connection(st.nextClient, false)],
                          nextClient := st.nextClient + 1))
  {
    hide LastHeard;
  }

  lemma {:induction false} LeavingKeepsKnown(st: ServerState, client: ClientId)
    requires WellKnown(st)
    ensures WellKnown(Departed(st, client))
  {
    hide LastHeard;
    ConnectionsOfOthers(st.connections, client);
    var s := Departed(st, client);
    forall k | 0 <= k < |s.connections|
      ensures s.connections[k] in st.connections
    {
      assert s.connections[k] in s.connections;
    }
  }

  lemma {:induction false} EventKeepsKnown(cfg: Config, st: ServerState, e: Event)
    requires CanHappen(cfg, st, e) && WellKnown(st)
    ensures WellKnown(Happens(cfg, st, e))
  {
    hide TickServed, TickSafe, StartServed, StartSafe, StartFits, StartDraws, StartSurvives, StartChecked, TickOf,
         Turned, WillStart, Obeys, Connected, WellKnown, Joined, ReadinessSet, Departed, AllReset;
    match e {
      case Connect => ConnectingKeepsKnown(st);
      case Disconnect(client) => LeavingKeepsKnown(st, client);
      case AddPlayer(client, name, c, d) =>
        JoiningKeepsKnown(st, client, name);
        StartKeepsKnown(cfg, Joined(st, client, name), c, d);
      case SetReadiness(client, ready, c, d) =>
        ReadyingKeepsKnown(st, client, ready);
        StartKeepsKnown(cfg, ReadinessSet(st, client, ready), c, d);
      case TurnCommand(client, player, d) => SilentStep(st, st.(players := Turned(st.players, player, d)), []);
      case PauseCommand(client, player, c) =>
        SilentStep(st, st.(pausing := true), []);
        if Obeys(st, client, player) && st.paused {
          SilentStep(st, Unpaused(st), []);
          TickKeepsKnown(cfg, Unpaused(st), 0, c);
        }
      case TimerFires(c) =>
        TimersDoNotMatter(st, c);
        var t := st.(timers := st.timers[1..]);
        SilentStep(st, t, []);
        TickKeepsKnown(cfg, t, st.timers[0], c);
    }
  }

  lemma {:induction false} RunKeepsKnown(cfg: Config, st: ServerState, events: seq<Event>)
    requires Run(cfg, st, events) && WellKnown(st)
    ensures WellKnown(AfterAll(cfg, st, events))
    decreases |events|
  {
    hide CanHappen, Happens, WellKnown;
    if events != [] {
      EventKeepsKnown(cfg, st, events[0]);
      RunKeepsKnown(cfg, Happens(cfg, st, events[0]), events[1..]);
    }
  }

  /** After every run of the server, what has last been sent about a connection is whether it is ready; one of
      which nothing has been sent is not ready. */
  lemma {:induction false} ReadinessIsKnown(cfg: Config, events: seq<Event>, k: nat)
    requires Run(cfg, IDLE, events) && k < |AfterAll(cfg, IDLE, events).connections|
    ensures
      var st := AfterAll(cfg, IDLE, events);
      st.connections[k].ready == LastHeard(st.log, st.connections[k].id)
  {
    hide Run, AfterAll;
    RunKeepsKnown(cfg, IDLE, events);
  }
}
