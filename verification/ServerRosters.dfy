/** Who is on the server: every player belongs to a connected client, nobody shares a name, and keys
    pressed while no game is being played are forgotten. */
module ServerRosters {
  import opened Definitions
  import opened Scores
  import opened HighScores
  import opened Snakes
  import opened LevelModel
  import opened GameModel
  import opened TurnQueues
  import opened ServerModel
  import opened ServerInvariants

  predicate ConnectionsDiffer(connections: seq<Connection>) {
    forall i, j :: 0 <= i < j < |connections| ==> connections[i].id != connections[j].id
  }

  predicate NamesDiffer(players: seq<PlayerState>) {
    forall i, j :: 0 <= i < j < |players| ==> players[i].name != players[j].name
  }

  /** Connections differ, every player belongs to one of them, names differ, and a game has a client. */
  ghost predicate Hosted(st: ServerState) {
    && ConnectionsDiffer(st.connections)
    && (forall k :: 0 <= k < |st.connections| ==> st.connections[k].id < st.nextClient)
    && (forall i :: 0 <= i < |st.players| ==> Connected(st.connections, st.players[i].client))
    && NamesDiffer(st.players)
    && (st.game.Some? ==> st.connections != [])
  }

  // ---------------------------------------------------------------- leaving

  /** Removing a client keeps exactly the players of all other clients, in their order. */
  lemma {:induction false} PlayersOfOthers(players: seq<PlayerState>, client: ClientId)
    ensures forall p :: p in WithoutClient(players, client) <==> p in players && p.client != client
    ensures NamesDiffer(players) ==> NamesDiffer(WithoutClient(players, client))
  {
    if players != [] {
      PlayersOfOthers(players[1..], client);
      var rest := WithoutClient(players[1..], client);
      assert players == [players[0]] + players[1..];
      assert WithoutClient(players, client) == (if players[0].client == client then [] else [players[0]]) + rest;
      forall j | 0 <= j < |rest|
        ensures NamesDiffer(players) ==> players[0].name != rest[j].name
      {
        assert rest[j] in players[1..];
      }
    }
  }

  lemma {:induction false} ConnectionsOfOthers(connections: seq<Connection>, client: ClientId)
    ensures forall c :: c in WithoutConnection(connections, client) <==> c in connections && c.id != client
    ensures ConnectionsDiffer(connections) ==> ConnectionsDiffer(WithoutConnection(connections, client))
  {
    if connections != [] {
      ConnectionsOfOthers(connections[1..], client);
      var rest := WithoutConnection(connections[1..], client);
      assert connections == [connections[0]] + connections[1..];
      assert WithoutConnection(connections, client)
          == (if connections[0].id == client then [] else [connections[0]]) + rest;
      forall j | 0 <= j < |rest|
        ensures ConnectionsDiffer(connections) ==> connections[0].id != rest[j].id
      {
        assert rest[j] in connections[1..];
      }
    }
  }

  lemma {:induction false} LeavingStaysHosted(st: ServerState, client: ClientId)
    requires Hosted(st)
    ensures Hosted(Departed(st, client))
    ensures !Connected(Departed(st, client).connections, client)
  {
    PlayersOfOthers(st.players, client);
    ConnectionsOfOthers(st.connections, client);
    var s := Departed(st, client);
    forall i | 0 <= i < |s.players|
      ensures Connected(s.connections, s.players[i].client)
    {
      assert s.players[i] in st.players;
      var k :| 0 <= k < |st.connections| && st.connections[k].id == s.players[i].client;
      assert st.connections[k] in s.connections;
    }
    forall k | 0 <= k < |s.connections|
      ensures s.connections[k].id < s.nextClient && s.connections[k].id != client
    {
      assert s.connections[k] in st.connections;
    }
  }

  // ---------------------------------------------------------------- everything else

  /** The same clients and players, whatever their readiness and turns. */
  ghost predicate SameRoster(st: ServerState, s: ServerState) {
    && |st.connections| == |s.connections| && st.nextClient == s.nextClient
    && (forall k :: 0 <= k < |st.connections| ==> st.connections[k].id == s.connections[k].id)
    && |st.players| == |s.players|
    && (forall i :: 0 <= i < |st.players| ==> st.players[i].(turns := NO_TURNS) == s.players[i].(turns := NO_TURNS))
  }

  lemma {:induction false} SameRosterStaysHosted(st: ServerState, s: ServerState)
    requires Hosted(st) && SameRoster(st, s) && (s.game.Some? ==> st.connections != [])
    ensures Hosted(s)
  {
    forall i | 0 <= i < |s.players|
      ensures s.players[i].client == st.players[i].client && s.players[i].name == st.players[i].name
    {
      assert st.players[i].(turns := NO_TURNS) == s.players[i].(turns := NO_TURNS);
    }
    forall i | 0 <= i < |s.players|
      ensures Connected(s.connections, s.players[i].client)
    {
      var k :| 0 <= k < |st.connections| && st.connections[k].id == st.players[i].client;
      assert s.connections[k].id == s.players[i].client;
    }
  }

  lemma {:induction false} TickKeepsRoster(cfg: Config, st: ServerState, countdown: nat, choice: Choice)
    requires TickSafe(st, countdown) && TickServed(st, countdown, choice)
    ensures SameRoster(st, TickOf(cfg, st, countdown, choice))
  {
    hide PlaySafe, Serves, Announced, GameTicked, TickedScores, ProgressedResult, FinalScore, WithScore, ReportOn;
  }

  lemma {:induction false} StartStaysHosted(cfg: Config, st: ServerState, starting: Choice, ticking: Choice)
    requires StartDraws(cfg, st, starting, ticking) && StartSurvives(cfg, st, starting, ticking)
    requires Hosted(st)
    ensures Hosted(StartChecked(cfg, st, starting, ticking))
  {
    hide TickSafe, TickServed, StartServed, TickOf, Hosted;
    if WillStart(st) {
      var begun := GameBegun(cfg, st, starting);
      SameRosterStaysHosted(st, begun);
      TickKeepsRoster(cfg, begun, cfg.countdown, ticking);
      SameRosterStaysHosted(begun, TickOf(cfg, begun, cfg.countdown, ticking));
    }
  }

  lemma {:induction false} JoiningStaysHosted(st: ServerState, client: ClientId, name: string)
    requires Hosted(st) && Connected(st.connections, client)
    ensures Hosted(Joined(st, client, name))
  {
    hide Connected;
    var s := Joined(st, client, name);
    assert s.connections == st.connections && Connected(st.connections, client) by { StillConnected(st, client); }
    if s.players != st.players {
      assert s.players == st.players + [PlayerState(st.nextPlayer, name, client, NO_TURNS)];
      assert forall i :: 0 <= i < |st.players| ==> st.players[i].name != name;
    }
  }

  lemma {:induction false} StillConnected(st: ServerState, client: ClientId)
    requires Connected(st.connections, client)
    ensures Connected(st.connections, client)
  {
  }

  lemma {:induction false} TickStaysHosted(cfg: Config, st: ServerState, s: ServerState, countdown: nat, choice: Choice)
    requires Hosted(st) && SameRoster(st, s) && (s.game.Some? ==> st.game.Some?)
    requires TickSafe(s, countdown) && TickServed(s, countdown, choice)
    ensures Hosted(TickOf(cfg, s, countdown, choice))
  {
    hide TickServed, TickOf;
    TickKeepsRoster(cfg, s, countdown, choice);
    TickStartsNoGame(cfg, s, countdown, choice);
    SameRosterStaysHosted(st, s);
    SameRosterStaysHosted(s, TickOf(cfg, s, countdown, choice));
  }

  lemma {:induction false} EventStaysHosted(cfg: Config, st: ServerState, e: Event)
    requires CanHappen(cfg, st, e) && Hosted(st)
    ensures Hosted(Happens(cfg, st, e))
  {
    hide TickServed, TickSafe, StartServed, StartSafe, StartDraws, TickOf, StartChecked, Played, WillStart, Hosted,
         Departed, Joined;
    match e {
      case Connect => ConnectingStaysHosted(st);
      case Disconnect(client) => LeavingStaysHosted(st, client);
      case AddPlayer(client, name, c, d) =>
        JoiningStaysHosted(st, client, name);
        StartStaysHosted(cfg, Joined(st, client, name), c, d);
      case SetReadiness(client, ready, c, d) =>
        ReadinessStaysHosted(st, client, ready);
        StartStaysHosted(cfg, ReadinessSet(st, client, ready), c, d);
      case TurnCommand(client, player, d) =>
        GameIsHosted(st);
        SameRosterStaysHosted(st, st.(players := Turned(st.players, player, d)));
      case PauseCommand(client, player, c) =>
        GameIsHosted(st);
        SameRosterStaysHosted(st, st.(pausing := true));
        if Obeys(st, client, player) && st.paused {
          TickStaysHosted(cfg, st, Unpaused(st), 0, c);
        }
      case TimerFires(c) => FiringStaysHosted(cfg, st, c);
    }
  }

  lemma {:induction false} GameIsHosted(st: ServerState)
    requires Hosted(st)
    ensures st.game.Some? ==> st.connections != []
  {
  }

  lemma {:induction false} ConnectingStaysHosted(st: ServerState)
    requires Hosted(st)
    ensures Hosted(st.(connections := st.connections + [Connection(st.nextClient, false)],
                       nextClient := st.nextClient + 1))
  {
    var s := st.(connections := st.connections + [Connection(st.nextClient, false)], nextClient := st.nextClient + 1);
    forall i | 0 <= i < |s.players|
      ensures Connected(s.connections, s.players[i].client)
    {
      var k :| 0 <= k < |st.connections| && st.connections[k].id == st.players[i].client;
      assert s.connections[k] == st.connections[k];
    }
  }

  lemma {:induction false} ReadinessStaysHosted(st: ServerState, client: ClientId, ready: bool)
    requires Hosted(st)
    ensures Hosted(ReadinessSet(st, client, ready))
  {
    SameRosterStaysHosted(st, ReadinessSet(st, client, ready));
  }

  lemma {:induction false} FiringStaysHosted(cfg: Config, st: ServerState, choice: Choice)
    requires st.timers != [] && Hosted(st)
    requires TickSafe(st, st.timers[0]) && TickServed(st, st.timers[0], choice)
    ensures TickSafe(st.(timers := st.timers[1..]), st.timers[0])
    ensures TickServed(st.(timers := st.timers[1..]), st.timers[0], choice)
    ensures Hosted(TickOf(cfg, st.(timers := st.timers[1..]), st.timers[0], choice))
  {
    hide Hosted, TickOf, Serves, Tickable;
    TickStaysHosted(cfg, st, st.(timers := st.timers[1..]), st.timers[0], choice);
  }

  /** In every run: connections differ, every player belongs to a connected client, players differ by
      name, and a game has at least one client. */
  lemma {:induction false} RunsAreHosted(cfg: Config, st: ServerState, events: seq<Event>)
    requires Run(cfg, st, events) && Hosted(st)
    ensures Hosted(AfterAll(cfg, st, events))
    decreases |events|
  {
    hide CanHappen, Happens, Hosted;
    if events != [] {
      EventStaysHosted(cfg, st, events[0]);
      RunsAreHosted(cfg, Happens(cfg, st, events[0]), events[1..]);
    }
  }

  // ---------------------------------------------------------------- forgotten keys

  /** The same players, whatever turns they have asked for. */
  ghost predicate SamePlayers(players: seq<PlayerState>, others: seq<PlayerState>) {
    && |players| == |others|
    && forall i :: 0 <= i < |players| ==> players[i].(turns := NO_TURNS) == others[i].(turns := NO_TURNS)
  }

  lemma {:induction false} ResetForgets(players: seq<PlayerState>, others: seq<PlayerState>)
    requires SamePlayers(players, others)
    ensures AllReset(players) == AllReset(others)
  {
  }

  /** Keys pressed before a tick of a countdown, or while the game is paused, make no difference to
      anything that follows. */
  lemma {:induction false} KeysAreForgotten(cfg: Config, st: ServerState, others: seq<PlayerState>, countdown: nat,
                                            choice: Choice)
    requires SamePlayers(st.players, others)
    ensures Unpaused(st) == Unpaused(st.(players := others))
    ensures TickSafe(st, countdown) && !st.pausing && countdown > 0 ==>
      TickOf(cfg, st, countdown, choice) == TickOf(cfg, st.(players := others), countdown, choice)
  {
    ResetForgets(st.players, others);
  }

  /** After a tick that cost or completed the level, no turns are waiting. */
  lemma {:induction false} LevelsStartAfresh(cfg: Config, st: ServerState, choice: Choice, i: nat)
    requires PlaySafe(st) && Serves(choice, st.game.value, MovesOf(st.players), st.scorer) && i < |st.players|
    requires ProgressedResult(st.game.value.level, MovesOf(st.players), st.scorer) in {Dead, AdvanceLevel}
    ensures i < |Played(cfg, st, choice).players| && Played(cfg, st, choice).players[i].turns == NO_TURNS
    ensures Played(cfg, st, choice).timers == st.timers + [cfg.countdown]
  {
    hide PlaySafe, Serves, Announced, GameTicked, TickedScores, ProgressedResult;
  }

  // ---------------------------------------------------------------- the score of a game

  /** The map holds everybody's own score under the name, and nothing else. */
  ghost predicate HoldsAll(players: seq<PlayerState>, sb: ScoreBoard, scores: map<string, int>) {
    && |scores| == |players|
    && (forall name :: name in scores ==> Named(players, name))
    && (forall i :: 0 <= i < |players| ==>
          && players[i].id in sb.scores && players[i].name in scores
          && scores[players[i].name] == sb.scores[players[i].id])
  }

  lemma {:induction false} HoldsOneMore(players: seq<PlayerState>, sb: ScoreBoard, earlier: map<string, int>)
    requires players != [] && NamesDiffer(players) && players[|players| - 1].id in sb.scores
    requires HoldsAll(players[..|players| - 1], sb, earlier)
    ensures
      var last := players[|players| - 1];
      last.name !in earlier && HoldsAll(players, sb, earlier[last.name := sb.scores[last.id]])
  {
    hide Named, NamesDiffer;
    var n := |players| - 1;
    var last := players[n];
    NotNamedBefore(players);
    var scores := earlier[last.name := sb.scores[last.id]];
    assert scores.Keys == earlier.Keys + {last.name};
    forall name | name in scores
      ensures Named(players, name)
    {
      NamedOrLast(players, name);
    }
    forall i | 0 <= i < n
      ensures players[i].id in sb.scores && players[i].name in earlier && players[i].name != last.name
      ensures earlier[players[i].name] == sb.scores[players[i].id]
    {
      assert players[..n][i] == players[i];
      LastNameDiffers(players, i);
    }
  }

  lemma {:induction false} LastNameDiffers(players: seq<PlayerState>, i: nat)
    requires NamesDiffer(players) && i < |players| - 1
    ensures players[i].name != players[|players| - 1].name
  {
  }

  lemma {:induction false} NotNamedBefore(players: seq<PlayerState>)
    requires players != [] && NamesDiffer(players)
    ensures !Named(players[..|players| - 1], players[|players| - 1].name)
  {
  }

  lemma {:induction false} NamedOrLast(players: seq<PlayerState>, name: string)
    requires players != []
    ensures Named(players, name) <==> Named(players[..|players| - 1], name) || players[|players| - 1].name == name
  {
    var n := |players| - 1;
    assert players == players[..n] + [players[n]];
  }

  /** If names differ, the score of a game holds everybody's own score under the name, and nothing else,
      so that games are told apart by the number of their players. */
  lemma {:induction false} EverybodyIsScored(players: seq<PlayerState>, sb: ScoreBoard)
    requires NamesDiffer(players) && forall i :: 0 <= i < |players| ==> players[i].id in sb.scores
    ensures HoldsAll(players, sb, ScoresByName(players, sb))
  {
    if players != [] {
      EverybodyIsScored(players[..|players| - 1], sb);
      HoldsOneMore(players, sb, ScoresByName(players[..|players| - 1], sb));
    }
  }

  predicate Named(players: seq<PlayerState>, name: string) {
    exists i :: 0 <= i < |players| && players[i].name == name
  }

  /** The points of all players, in the players' order. */
  function Points(players: seq<PlayerState>, sb: ScoreBoard): (points: seq<int>)
    requires forall i :: 0 <= i < |players| ==> players[i].id in sb.scores
    ensures |points| == |players| && forall i :: 0 <= i < |points| ==> points[i] == sb.scores[players[i].id]
  {
    seq(|players|, i requires 0 <= i < |players| => sb.scores[players[i].id])
  }

  function SumOf(points: seq<int>): int {
    if points == [] then 0 else points[0] + SumOf(points[1..])
  }

  lemma {:induction false} SumOfOneMore(points: seq<int>, p: int)
    ensures SumOf(points + [p]) == SumOf(points) + p
  {
    if points != [] {
      assert (points + [p])[1..] == points[1..] + [p];
      SumOfOneMore(points[1..], p);
    }
  }

  lemma {:induction false} TotalIsTheSum(players: seq<PlayerState>, sb: ScoreBoard)
    requires forall i :: 0 <= i < |players| ==> players[i].id in sb.scores
    ensures TeamScore(players, sb) == SumOf(Points(players, sb))
  {
    if players != [] {
      var n := |players| - 1;
      TotalIsTheSum(players[..n], sb);
      SumOfOneMore(Points(players[..n], sb), sb.scores[players[n].id]);
      assert Points(players, sb) == Points(players[..n], sb) + [sb.scores[players[n].id]];
    }
  }

  /** A game goes down with the time of its end, the sum of all players' points, and the points of each of them;
      in the table for its number of players and its settings, and in no other. */
  lemma {:induction false} GameIsFiled(players: seq<PlayerState>, sb: ScoreBoard, settings: GameSettings, now: int,
                                       tables: Tables)
    requires NamesDiffer(players) && forall i :: 0 <= i < |players| ==> players[i].id in sb.scores
    ensures
      var score := FinalScore(players, sb, now);
      var filed := WithScore(tables, settings, score);
      && score.time == now && score.total == SumOf(Points(players, sb))
      && |score.playerScores| == |players|
      && (forall i :: 0 <= i < |players| ==>
            && players[i].name in score.playerScores
            && score.playerScores[players[i].name] == sb.scores[players[i].id])
      && GameType(|players|, settings) in filed
      && (exists e :: e in filed[GameType(|players|, settings)] && e.total == score.total && e.time == now)
      && (forall t :: t != GameType(|players|, settings) ==> TableOf(filed, t) == TableOf(tables, t))
  {
    TotalIsTheSum(players, sb);
    EverybodyIsScored(players, sb);
    hide TeamScore, ScoresByName, Named, NamesDiffer, SumOf, Inserted;
    var score := FinalScore(players, sb, now);
    SomebodyIsThere(TableOf(tables, GameType(|players|, settings)), score);
  }

  lemma {:induction false} SomebodyIsThere(table: seq<HighScore>, score: HighScore)
    ensures exists e :: e in Inserted(table, score) && e.total == score.total && e.time == score.time
  {
    var k, t := CountWorse(table, score), Inserted(table, score);
    assert t[k] in t;
  }
}
