/** The server as a state machine over what happens to it: connections come and go, players join, get
    ready and press keys, and a timer drives the ticks of a game. */
module ServerModel {
  import opened Geometry
  import opened Definitions
  import opened Scores
  import opened HighScores
  import opened Snakes
  import opened LevelModel
  import opened GameModel
  import opened TurnQueues

  type ClientId = nat

  /** What the server is started with. */
  datatype Config = Config(levels: seq<LevelDefinition>, settings: GameSettings, countdown: nat)

  datatype Connection = Connection(id: ClientId, ready: bool)

  datatype PlayerState = PlayerState(id: PlayerId, name: string, client: ClientId, turns: TurnQueue)

  /** timers holds the countdowns of the pending waits of the tick timer; log is what was sent to all. */
  datatype ServerState = ServerState(
    connections: seq<Connection>,
    nextClient: ClientId,
    players: seq<PlayerState>,
    nextPlayer: PlayerId,
    game: Option<GameState>,
    timers: seq<nat>,
    pausing: bool,
    paused: bool,
    scorer: ScoreBoard,
    highScores: Tables,
    log: seq<Message>)

  const IDLE: ServerState := ServerState([], 0, [], 0, None, [], false, false, NO_SCORES, map[], [])

  // ---------------------------------------------------------------- players and connections

  function Ids(players: seq<PlayerState>): (ids: seq<PlayerId>)
    ensures |ids| == |players| && forall i :: 0 <= i < |ids| ==> ids[i] == players[i].id
  {
    seq(|players|, i requires 0 <= i < |players| => players[i].id)
  }

  function AllReset(players: seq<PlayerState>): (r: seq<PlayerState>)
    ensures |r| == |players| && forall i :: 0 <= i < |r| ==> r[i] == players[i].(turns := NO_TURNS)
  {
    seq(|players|, i requires 0 <= i < |players| => players[i].(turns := NO_TURNS))
  }

  function AllDequeued(players: seq<PlayerState>): (r: seq<PlayerState>)
    ensures |r| == |players| && forall i :: 0 <= i < |r| ==> r[i] == players[i].(turns := players[i].turns.Rest())
  {
    seq(|players|, i requires 0 <= i < |players| => players[i].(turns := players[i].turns.Rest()))
  }

  /** The moves of a tick: the front of each player's queue, if there is one. */
  function MovesOf(players: seq<PlayerState>): Moves {
    if players == [] then map[]
    else
      var last := players[|players| - 1];
      var moves := MovesOf(players[..|players| - 1]);
      if last.turns.Front().Some? then moves[last.id := last.turns.Front().value] else moves
  }

  function WithoutClient(players: seq<PlayerState>, client: ClientId): seq<PlayerState> {
    if players == [] then []
    else (if players[0].client == client then [] else [players[0]]) + WithoutClient(players[1..], client)
  }

  function WithoutConnection(connections: seq<Connection>, client: ClientId): seq<Connection> {
    if connections == [] then []
    else (if connections[0].id == client then [] else [connections[0]]) + WithoutConnection(connections[1..], client)
  }

  function WithReadiness(connections: seq<Connection>, client: ClientId, ready: bool): (r: seq<Connection>)
    ensures |r| == |connections|
  {
    seq(|connections|, i requires 0 <= i < |connections| =>
      if connections[i].id == client then Connection(client, ready) else connections[i])
  }

  function AllUnready(connections: seq<Connection>): (r: seq<Connection>)
    ensures |r| == |connections| && forall i :: 0 <= i < |r| ==> r[i] == Connection(connections[i].id, false)
  {
    seq(|connections|, i requires 0 <= i < |connections| => Connection(connections[i].id, false))
  }

  function Unreadied(connections: seq<Connection>): (r: seq<Message>)
    ensures |r| == |connections| && forall i :: 0 <= i < |r| ==> r[i] == UpdateReadiness(connections[i].id, false)
  {
    seq(|connections|, i requires 0 <= i < |connections| => UpdateReadiness(connections[i].id, false))
  }

  predicate Connected(connections: seq<Connection>, client: ClientId) {
    exists i :: 0 <= i < |connections| && connections[i].id == client
  }

  // ---------------------------------------------------------------- ticks

  /** A tick plays the game unless it counts down or goes into a pause; a pause cancels a countdown. */
  predicate Plays(st: ServerState, countdown: nat) {
    st.pausing <==> countdown > 0
  }

  /** The scorer knows all players. */
  ghost predicate AllScored(st: ServerState) {
    forall i :: 0 <= i < |st.players| ==> st.players[i].id in st.scorer.scores
  }

  /** A tick that plays ends the game. */
  ghost predicate Ends(st: ServerState)
    requires st.game.Some? && Tickable(st.game.value, st.scorer)
  {
    ProgressedResult(st.game.value.level, MovesOf(st.players), st.scorer) == GameOver
  }

  /** Nothing on the way of a tick that plays fails: there is a game, no assertion is violated, a level
      that starts has enough starts, and at the end of the game every player has a score. */
  ghost predicate PlaySafe(st: ServerState) {
    && st.game.Some? && Tickable(st.game.value, st.scorer)
    && Fits(st.game.value, MovesOf(st.players), st.scorer)
    && (Ends(st) ==> AllScored(st))
  }

  /** A tick puts the game to rest before it looks at it. */
  predicate Rests(st: ServerState, countdown: nat) {
    st.pausing && countdown == 0
  }

  ghost predicate TickSafe(st: ServerState, countdown: nat) {
    Rests(st, countdown) || (st.game.Some? && (Plays(st, countdown) ==> PlaySafe(st)))
  }

  /** The draws serve the tick, if it plays. */
  ghost predicate TickServed(st: ServerState, countdown: nat, choice: Choice)
    requires TickSafe(st, countdown)
  {
    Plays(st, countdown) ==> Serves(choice, st.game.value, MovesOf(st.players), st.scorer)
  }

  /** What all players together have scored. */
  function TeamScore(players: seq<PlayerState>, sb: ScoreBoard): int {
    if players == [] then 0
    else
      var last := players[|players| - 1];
      TeamScore(players[..|players| - 1], sb) + if last.id in sb.scores then sb.scores[last.id] else 0
  }

  /** The players' scores by name. */
  function ScoresByName(players: seq<PlayerState>, sb: ScoreBoard): map<string, int> {
    if players == [] then map[]
    else
      var last := players[|players| - 1];
      var scores := ScoresByName(players[..|players| - 1], sb);
      if last.id in sb.scores && last.name !in scores then scores[last.name := sb.scores[last.id]] else scores
  }

  /** The score a game that ends now goes down with. */
  function FinalScore(players: seq<PlayerState>, sb: ScoreBoard, now: int): HighScore {
    HighScore(now, TeamScore(players, sb), ScoresByName(players, sb))
  }

  /** The end of a game: its score enters the tables, the report goes out, everybody becomes unready, the
      game is gone. */
  function GameEnded(st: ServerState, now: int): ServerState
    requires st.game.Some?
  {
    var settings, score := st.game.value.settings, FinalScore(st.players, st.scorer, now);
    st.(highScores := WithScore(st.highScores, settings, score),
        log := st.log + [GameOverMessage(ReportOn(st.highScores, settings, score))] + Unreadied(st.connections),
        connections := AllUnready(st.connections),
        scorer := NO_SCORES,
        game := None)
  }

  /** The half of a tick that plays. */
  ghost function Played(cfg: Config, st: ServerState, choice: Choice): ServerState
    requires PlaySafe(st) && Serves(choice, st.game.value, MovesOf(st.players), st.scorer)
  {
    var g, moves := st.game.value, MovesOf(st.players);
    var result := ProgressedResult(g.level, moves, st.scorer);
    var s := st.(
      players := AllDequeued(st.players),
      log := st.log + ([TickMessage(moves)] + Announced(g, moves, st.scorer, choice)),
      scorer := TickedScores(g.settings, g.level, moves, st.scorer),
      game := Some(GameTicked(g, moves, st.scorer, choice)));
    if result == GameOver then GameEnded(s, choice.now)
    else if result.Rank() >= AdvanceLevel.Rank() then
      s.(players := AllReset(s.players), timers := s.timers + [cfg.countdown])
    else s.(timers := s.timers + [0])
  }

  /** A tick with some countdown left. Setting the timer anew cancels a wait that is still pending. */
  ghost function TickOf(cfg: Config, st: ServerState, countdown: nat, choice: Choice): ServerState
    requires TickSafe(st, countdown) && TickServed(st, countdown, choice)
  {
    if Plays(st, countdown) then Played(cfg, st.(pausing := false, timers := []), choice)
    else if Rests(st, countdown) then st.(pausing := false, paused := true)
    else st.(log := st.log + [Countdown(countdown)],
             players := AllReset(st.players),
             timers := [countdown - 1])
  }

  // ---------------------------------------------------------------- game start

  predicate WillStart(st: ServerState) {
    && st.game.None? && st.connections != [] && st.players != []
    && forall i :: 0 <= i < |st.connections| ==> st.connections[i].ready
  }

  /** The first level has a start for every player. */
  ghost predicate StartFits(cfg: Config, st: ServerState) {
    && Suits(cfg.levels, cfg.settings, Ids(st.players))
    && EnoughStarts(cfg.levels, Ids(st.players), cfg.settings.startLevel)
  }

  ghost predicate StartServed(cfg: Config, st: ServerState, choice: Choice) {
    && Suits(cfg.levels, cfg.settings, Ids(st.players))
    && CanStart(cfg.levels, cfg.settings, Ids(st.players), cfg.settings.startLevel, choice)
  }

  /** The game has been announced and set up, and its first tick is due. */
  ghost function GameBegun(cfg: Config, st: ServerState, choice: Choice): ServerState
    requires StartServed(cfg, st, choice)
  {
    var ids := Ids(st.players);
    var g := Started(cfg.levels, cfg.settings, ids, cfg.settings.startLevel, choice);
    st.(log := st.log + ([GameStart(cfg.settings)] + Announcement(g.level)),
        scorer := FreshScores(ids, cfg.settings.startLives),
        players := AllReset(st.players),
        game := Some(g))
  }

  // ---------------------------------------------------------------- events

  /** What can happen to the server. Events that may start a game or play a tick carry the random
      choices made in them. */
  datatype Event =
    | Connect
    | Disconnect(client: ClientId)
    | AddPlayer(client: ClientId, name: string, starting: Choice, ticking: Choice)
    | SetReadiness(client: ClientId, ready: bool, starting: Choice, ticking: Choice)
    | TurnCommand(client: ClientId, player: PlayerId, direction: Direction)
    | PauseCommand(client: ClientId, player: PlayerId, ticking: Choice)
    | TimerFires(ticking: Choice)

  function Joined(st: ServerState, client: ClientId, name: string): ServerState {
    if exists i :: 0 <= i < |st.players| && st.players[i].name == name
    then st.(nextPlayer := st.nextPlayer + 1)
    else st.(players := st.players + [PlayerState(st.nextPlayer, name, client, NO_TURNS)],
             nextPlayer := st.nextPlayer + 1,
             log := st.log + [PlayerAdded(st.nextPlayer, name)])
  }

  function ReadinessSet(st: ServerState, client: ClientId, ready: bool): ServerState {
    st.(connections := WithReadiness(st.connections, client, ready),
        log := st.log + [UpdateReadiness(client, ready)])
  }

  function Departed(st: ServerState, client: ClientId): ServerState {
    var s := st.(players := WithoutClient(st.players, client),
                 connections := WithoutConnection(st.connections, client));
    if s.connections == [] && s.game.Some? then s.(scorer := NO_SCORES, game := None, timers := []) else s
  }

  /** A command counts only if it names a player of the client that sends it. */
  predicate Commands(st: ServerState, client: ClientId, i: int, player: PlayerId) {
    0 <= i < |st.players| && st.players[i].id == player && st.players[i].client == client
  }

  predicate Obeys(st: ServerState, client: ClientId, player: PlayerId) {
    exists i :: 0 <= i < |st.players| && Commands(st, client, i, player)
  }

  function Turned(players: seq<PlayerState>, player: PlayerId, d: Direction): (r: seq<PlayerState>)
    ensures |r| == |players|
    ensures forall i :: 0 <= i < |r| ==>
      r[i] == if players[i].id == player then players[i].(turns := players[i].turns.Queue(d)) else players[i]
  {
    seq(|players|, i requires 0 <= i < |players| =>
      if players[i].id == player then players[i].(turns := players[i].turns.Queue(d)) else players[i])
  }

  /** Setting up a game adds every player to a scorer that knows none of them, and runs a tick. */
  ghost predicate StartSafe(cfg: Config, st: ServerState, choice: Choice)
    requires StartServed(cfg, st, choice)
  {
    st.scorer == NO_SCORES && TickSafe(GameBegun(cfg, st, choice), cfg.countdown)
  }

  ghost function StartChecked(cfg: Config, st: ServerState, starting: Choice, ticking: Choice): ServerState
    requires WillStart(st) ==>
      && StartServed(cfg, st, starting) && StartSafe(cfg, st, starting)
      && TickServed(GameBegun(cfg, st, starting), cfg.countdown, ticking)
  {
    if WillStart(st) then TickOf(cfg, GameBegun(cfg, st, starting), cfg.countdown, ticking) else st
  }

  /** The pause key was pressed while the game was paused. */
  function Unpaused(st: ServerState): ServerState {
    st.(paused := false, players := AllReset(st.players))
  }

  // ---------------------------------------------------------------- what may happen, and what is safe

  /** The draws serve a tick that can run. */
  ghost predicate Draws(st: ServerState, countdown: nat, choice: Choice) {
    TickSafe(st, countdown) ==> TickServed(st, countdown, choice)
  }

  /** The draws serve a game that can start. */
  ghost predicate StartDraws(cfg: Config, st: ServerState, starting: Choice, ticking: Choice) {
    WillStart(st) && StartFits(cfg, st) ==>
      StartServed(cfg, st, starting) && Draws(GameBegun(cfg, st, starting), cfg.countdown, ticking)
  }

  /** The world allows the event: messages come from existing connections, a timer fires only if it is
      armed, and where a tick or the start of a game can run, the draws serve it. */
  ghost predicate Allowed(cfg: Config, st: ServerState, e: Event) {
    match e
    case Connect => true
    case Disconnect(client) => Connected(st.connections, client)
    case AddPlayer(client, name, c, d) =>
      Connected(st.connections, client) && StartDraws(cfg, Joined(st, client, name), c, d)
    case SetReadiness(client, ready, c, d) =>
      Connected(st.connections, client) && StartDraws(cfg, ReadinessSet(st, client, ready), c, d)
    case TurnCommand(client, _, _) => Connected(st.connections, client)
    case PauseCommand(client, player, c) =>
      Connected(st.connections, client) && (Obeys(st, client, player) && st.paused ==> Draws(Unpaused(st), 0, c))
    case TimerFires(c) => st.timers != [] && Draws(st, st.timers[0], c)
  }

  /** If a game starts, it can be set up and ticked for the first time. */
  ghost predicate StartSurvives(cfg: Config, st: ServerState, starting: Choice, ticking: Choice)
    requires StartDraws(cfg, st, starting, ticking)
  {
    WillStart(st) ==> StartFits(cfg, st) && StartSafe(cfg, st, starting)
  }

  /** The server survives the event: no assertion fails, nothing is thrown, and no game is used that is
      not there. */
  ghost predicate Survives(cfg: Config, st: ServerState, e: Event)
    requires Allowed(cfg, st, e)
  {
    match e
    case AddPlayer(client, name, c, d) => StartSurvives(cfg, Joined(st, client, name), c, d)
    case SetReadiness(client, ready, c, d) => StartSurvives(cfg, ReadinessSet(st, client, ready), c, d)
    case PauseCommand(client, player, c) => Obeys(st, client, player) && st.paused ==> TickSafe(Unpaused(st), 0)
    case TimerFires(c) => TickSafe(st, st.timers[0])
    case _ => true
  }

  ghost predicate CanHappen(cfg: Config, st: ServerState, e: Event) {
    Allowed(cfg, st, e) && Survives(cfg, st, e)
  }

  ghost function Happens(cfg: Config, st: ServerState, e: Event): ServerState
    requires CanHappen(cfg, st, e)
  {
    match e
    case Connect =>
      if st.game.Some? then st
      else st.(connections := st.connections + [Connection(st.nextClient, false)], nextClient := st.nextClient + 1)
    case Disconnect(client) => Departed(st, client)
    case AddPlayer(client, name, c, d) => StartChecked(cfg, Joined(st, client, name), c, d)
    case SetReadiness(client, ready, c, d) => StartChecked(cfg, ReadinessSet(st, client, ready), c, d)
    case TurnCommand(client, player, d) =>
      if Obeys(st, client, player) then st.(players := Turned(st.players, player, d)) else st
    case PauseCommand(client, player, c) =>
      if !Obeys(st, client, player) then st
      else if st.paused then TickOf(cfg, Unpaused(st), 0, c)
      else st.(pausing := true)
    case TimerFires(c) => TickOf(cfg, st.(timers := st.timers[1..]), st.timers[0], c)
  }

  ghost predicate Run(cfg: Config, st: ServerState, events: seq<Event>)
    decreases |events|
  {
    hide CanHappen, Happens;
    events == [] || (CanHappen(cfg, st, events[0]) && Run(cfg, Happens(cfg, st, events[0]), events[1..]))
  }

  ghost function AfterAll(cfg: Config, st: ServerState, events: seq<Event>): ServerState
    requires Run(cfg, st, events)
    decreases |events|
  {
    hide CanHappen, Happens;
    if events == [] then st else AfterAll(cfg, Happens(cfg, st, events[0]), events[1..])
  }
}
